/** The two simulator classes, `SimulacaoJanelaDeslizante` and
    `SimulacaoJanelaDeslizanteSemThreads`. They hold the same state and the same
    per-packet operations and differ only in their dispatch loop, so one class models
    both, with one run method per variant. Threads, the semaphore, wall-clock readings
    and random draws are replaced by a simulated clock and injected outcomes. */
module Simulation {
  import opened Packets
  import opened Scheduling
  import opened Metrics
  import opened Transmission

  /** The batches of a run laid end to end. */
  function Concat(batches: seq<seq<Packet>>): seq<Packet>
  {
    if batches == [] then [] else Concat(batches[..|batches| - 1]) + batches[|batches| - 1]
  }

  lemma {:induction false} ConcatCons(b: seq<Packet>, batches: seq<seq<Packet>>)
    ensures Concat([b] + batches) == b + Concat(batches)
  {
    if batches == [] {
      assert ([b] + batches)[..0] == [];
    } else {
      var init, last := batches[..|batches| - 1], batches[|batches| - 1];
      var c := [b] + batches;
      assert c[..|c| - 1] == [b] + init && c[|c| - 1] == last;
      ConcatCons(b, init);
      assert Concat(c) == b + Concat(init) + last;
      assert b + Concat(init) + last == b + (Concat(init) + last);
    }
  }

  function Min(a: int, b: int): int
  {
    if a <= b then a else b
  }

  /** The windows of a run: the ordered list cut into consecutive slices of `w` packets,
      the last one holding what is left. */
  function Chunks(s: seq<Packet>, w: int): seq<seq<Packet>>
    requires w >= 1
    decreases |s|
  {
    if s == [] then [] else var k := Min(w, |s|); [s[..k]] + Chunks(s[k..], w)
  }

  /** The windows lay end to end into the whole list. */
  lemma {:induction false} ChunksCover(s: seq<Packet>, w: int)
    requires w >= 1
    ensures Concat(Chunks(s, w)) == s
    decreases |s|
  {
    if s != [] {
      var k := Min(w, |s|);
      var rest := Chunks(s[k..], w);
      assert Chunks(s, w) == [s[..k]] + rest;
      ChunksCover(s[k..], w);
      ConcatCons(s[..k], rest);
      assert s[..k] + s[k..] == s;
    }
  }

  /** Each window holds 1..w packets, and every one but the last exactly w. */
  lemma {:induction false} ChunksSizes(s: seq<Packet>, w: int)
    requires w >= 1
    ensures forall i :: 0 <= i < |Chunks(s, w)| ==> 1 <= |Chunks(s, w)[i]| <= w
    ensures forall i :: 0 <= i < |Chunks(s, w)| - 1 ==> |Chunks(s, w)[i]| == w
    decreases |s|
  {
    if s != [] {
      var k := Min(w, |s|);
      var rest := Chunks(s[k..], w);
      var c := Chunks(s, w);
      assert c == [s[..k]] + rest;
      ChunksSizes(s[k..], w);
      forall i | 0 <= i < |c| ensures 1 <= |c[i]| <= w && (i < |c| - 1 ==> |c[i]| == w) {
        if i == 0 {
          assert c[0] == s[..k];
          if rest != [] {
            assert s[k..] != [];
          }
        } else {
          assert c[i] == rest[i - 1];
        }
      }
    }
  }

  /** The windows from position `i` on: the next min(w, remaining) packets, then the rest. */
  lemma ChunksStep(s: seq<Packet>, i: nat, w: int)
    requires w >= 1 && i < |s|
    ensures Chunks(s[i..], w) == [s[i..i + Min(w, |s| - i)]] + Chunks(s[i + Min(w, |s| - i)..], w)
  {
    var k := Min(w, |s| - i);
    assert s[i..][..k] == s[i..i + k];
    assert s[i..][k..] == s[i + k..];
  }

  /** Once the windows sent so far and the windows of the rest make up all windows,
      sending the next window keeps it so. */
  lemma ChunksAdvance(done: seq<seq<Packet>>, s: seq<Packet>, first: nat, next: nat, w: int)
    requires w >= 1 && first < |s| && next == first + Min(w, |s| - first)
    requires done + Chunks(s[first..], w) == Chunks(s, w)
    ensures (done + [s[first..next]]) + Chunks(s[next..], w) == Chunks(s, w)
  {
    ChunksStep(s, first, w);
    assert done + ([s[first..next]] + Chunks(s[next..], w)) == (done + [s[first..next]]) + Chunks(s[next..], w);
  }

  /** One slot of a round: while packets remain, the round takes the next one; once the
      list is exhausted the slot is empty. Either way the round keeps the size Min gives. */
  lemma RoundSlot(s: seq<Packet>, index: nat, next: nat, next': nat, slot: int, round: seq<Packet>)
    requires 0 <= slot && index <= |s| && next == index + Min(slot, |s| - index) && round == s[index..next]
    requires next' == if next < |s| then next + 1 else next
    ensures next' == index + Min(slot + 1, |s| - index)
    ensures next < |s| ==> round + [s[next]] == s[index..next']
  {
  }

  /** Once no packet is left, the windows sent are all the windows. */
  lemma ChunksDone(done: seq<seq<Packet>>, s: seq<Packet>, index: nat, w: int)
    requires w >= 1 && index == |s| && done + Chunks(s[index..], w) == Chunks(s, w)
    ensures done == Chunks(s, w)
  {
    assert s[index..] == [];
    assert done + [] == done;
  }

  /** Batches of one packet each, laid end to end to form `s`, are the packets of `s`
      one by one. */
  lemma {:induction false} SingletonBatches(batches: seq<seq<Packet>>, s: seq<Packet>)
    requires Concat(batches) == s
    requires forall b :: b in batches ==> |b| == 1
    ensures |batches| == |s|
    ensures forall i :: 0 <= i < |s| ==> batches[i] == [s[i]]
  {
    if batches != [] {
      var init, last := batches[..|batches| - 1], batches[|batches| - 1];
      assert last in batches;
      forall b | b in init ensures |b| == 1 {
        assert b in batches;
      }
      SingletonBatches(init, Concat(init));
      assert s == Concat(init) + last;
      forall i | 0 <= i < |s| ensures batches[i] == [s[i]] {
        if i < |init| {
          assert batches[i] == init[i];
        } else {
          assert last == [last[0]];
        }
      }
    }
  }

  /** The messages packet `id` logs from its first attempt to its acknowledgement, whose
      ACK carries the whole time to delivery. An id without a plan that delivers logs
      nothing; no run sends one. */
  function PacketEvents(id: int, plans: map<int, seq<Attempt>>): seq<Event>
  {
    if id in plans && Delivers(plans[id]) then DeliveryEvents(id, plans[id]) + [AckReceived(id, TimeToDelivery(plans[id]))]
    else []
  }

  /** A log extended by the delivery of a packet and its acknowledgement after the plan's
      time holds that packet's messages. */
  lemma PacketLogged(log0: seq<Event>, id: int, plans: map<int, seq<Attempt>>, t: int, after: seq<Event>)
    requires id in plans && Delivers(plans[id]) && t == TimeToDelivery(plans[id])
    requires after == log0 + DeliveryEvents(id, plans[id]) + [AckReceived(id, t)]
    ensures after == log0 + PacketEvents(id, plans)
  {
    AppendAssociates(log0, DeliveryEvents(id, plans[id]), [AckReceived(id, t)]);
  }

  /** The time packet `id` takes from its first attempt to its acknowledgement. */
  function PacketTime(id: int, plans: map<int, seq<Attempt>>): nat
  {
    if id in plans && Delivers(plans[id]) then TimeToDelivery(plans[id]) else 0
  }

  /** The messages of the packets of `s` sent one after another, each to its acknowledgement. */
  function SendsEvents(s: seq<Packet>, plans: map<int, seq<Attempt>>): seq<Event>
  {
    if s == [] then [] else SendsEvents(s[..|s| - 1], plans) + PacketEvents(s[|s| - 1].id, plans)
  }

  /** The time the packets of `s` take, sent one after another. */
  function SendsTime(s: seq<Packet>, plans: map<int, seq<Attempt>>): nat
  {
    if s == [] then 0 else SendsTime(s[..|s| - 1], plans) + PacketTime(s[|s| - 1].id, plans)
  }

  lemma SendsSnoc(s: seq<Packet>, i: nat, j: nat, plans: map<int, seq<Attempt>>)
    requires i <= j < |s|
    ensures SendsEvents(s[i..j + 1], plans) == SendsEvents(s[i..j], plans) + PacketEvents(s[j].id, plans)
  {
    var t := s[i..j + 1];
    assert t[..|t| - 1] == s[i..j] && t[|t| - 1] == s[j];
  }

  lemma PrefixSnoc(s: seq<Packet>, n: nat, plans: map<int, seq<Attempt>>)
    requires n < |s|
    ensures SendsEvents(s[..n + 1], plans) == SendsEvents(s[..n], plans) + PacketEvents(s[n].id, plans)
    ensures SendsTime(s[..n + 1], plans) == SendsTime(s[..n], plans) + PacketTime(s[n].id, plans)
  {
    assert s[..n + 1][..n] == s[..n];
  }

  lemma SendsSnocOne(s: seq<Packet>, p: Packet, plans: map<int, seq<Attempt>>)
    ensures SendsEvents(s + [p], plans) == SendsEvents(s, plans) + PacketEvents(p.id, plans)
  {
    assert (s + [p])[..|s|] == s;
  }

  /** Sending one list and then another logs the messages of the two, one after the other. */
  lemma {:induction false} SendsAppend(x: seq<Packet>, y: seq<Packet>, plans: map<int, seq<Attempt>>)
    ensures SendsEvents(x + y, plans) == SendsEvents(x, plans) + SendsEvents(y, plans)
  {
    if y == [] {
      assert x + y == x;
    } else {
      var init, last := y[..|y| - 1], y[|y| - 1];
      assert init + [last] == y;
      calc {
        SendsEvents(x + y, plans);
        { assert x + y == (x + init) + [last]; }
        SendsEvents((x + init) + [last], plans);
        { SendsSnocOne(x + init, last, plans); }
        SendsEvents(x + init, plans) + PacketEvents(last.id, plans);
        { SendsAppend(x, init, plans); }
        SendsEvents(x, plans) + SendsEvents(init, plans) + PacketEvents(last.id, plans);
        { AppendAssociates(SendsEvents(x, plans), SendsEvents(init, plans), PacketEvents(last.id, plans));
          SendsSnocOne(init, last, plans); }
        SendsEvents(x, plans) + SendsEvents(y, plans);
      }
    }
  }

  /** The time of sending a prefix never exceeds that of a longer prefix. */
  lemma {:induction false} SendsTimeGrows(s: seq<Packet>, i: nat, j: nat, plans: map<int, seq<Attempt>>)
    requires i <= j <= |s|
    ensures SendsTime(s[..i], plans) <= SendsTime(s[..j], plans)
    decreases j
  {
    if i < j {
      SendsTimeGrows(s, i, j - 1, plans);
      PrefixSnoc(s, j - 1, plans);
    }
  }

  /** The messages of a windowed run: each window's header "Enviando janela n", numbered
      from 1, then the messages of its packets sent one after another. */
  function WindowsEvents(windows: seq<seq<Packet>>, plans: map<int, seq<Attempt>>): seq<Event>
  {
    if windows == [] then []
    else WindowsEvents(windows[..|windows| - 1], plans) + [WindowOpened(|windows|)] + SendsEvents(windows[|windows| - 1], plans)
  }

  lemma WindowsSnoc(windows: seq<seq<Packet>>, b: seq<Packet>, plans: map<int, seq<Attempt>>)
    ensures WindowsEvents(windows + [b], plans) == WindowsEvents(windows, plans) + [WindowOpened(|windows| + 1)] + SendsEvents(b, plans)
  {
    assert (windows + [b])[..|windows|] == windows;
  }

  /** A log holding the messages of `s[first..n]`, extended by the messages of `s[n]`,
      holds the messages of `s[first..n + 1]`. */
  lemma SendsLogStep(log0: seq<Event>, s: seq<Packet>, first: nat, n: nat, next: nat, plans: map<int, seq<Attempt>>,
                     before: seq<Event>)
    requires first <= n < |s| && next == n + 1
    requires before == log0 + SendsEvents(s[first..n], plans)
    ensures before + PacketEvents(s[n].id, plans) == log0 + SendsEvents(s[first..next], plans)
  {
    SendsSnoc(s, first, n, plans);
    AppendAssociates(log0, SendsEvents(s[first..n], plans), PacketEvents(s[n].id, plans));
  }

  /** A log holding the messages of the first packets, extended by the messages of the
      packets that follow, holds the messages of the longer prefix. */
  lemma RoundLogStep(log0: seq<Event>, s: seq<Packet>, first: nat, next: nat, plans: map<int, seq<Attempt>>,
                     before: seq<Event>, after: seq<Event>)
    requires first <= next <= |s|
    requires before == log0 + SendsEvents(s[..first], plans)
    requires after == before + SendsEvents(s[first..next], plans)
    ensures after == log0 + SendsEvents(s[..next], plans)
  {
    SendsAppend(s[..first], s[first..next], plans);
    assert s[..first] + s[first..next] == s[..next];
    AppendAssociates(log0, SendsEvents(s[..first], plans), SendsEvents(s[first..next], plans));
  }

  /** A log holding the windows sent so far, extended by the next window's header and
      messages, holds one more window. */
  lemma WindowLogStep(log0: seq<Event>, windows: seq<seq<Packet>>, number: int, b: seq<Packet>, plans: map<int, seq<Attempt>>,
                      before: seq<Event>, after: seq<Event>)
    requires number == |windows| + 1
    requires before == log0 + WindowsEvents(windows, plans)
    requires after == before + [WindowOpened(number)] + SendsEvents(b, plans)
    ensures after == log0 + WindowsEvents(windows + [b], plans)
  {
    var sent, header, last := WindowsEvents(windows, plans), [WindowOpened(number)], SendsEvents(b, plans);
    WindowsSnoc(windows, b, plans);
    AppendAssociates(log0 + sent, header, last);
    AppendAssociates(log0, sent, header + last);
    AppendAssociates(log0, sent + header, last);
    AppendAssociates(sent, header, last);
  }

  /** The messages of a run that opens one window per packet of `s`: window n sends the
      n-th packet of `s`. */
  function OnePerWindow(s: seq<Packet>, plans: map<int, seq<Attempt>>): seq<Event>
  {
    if s == [] then []
    else OnePerWindow(s[..|s| - 1], plans) + [WindowOpened(|s|)] + PacketEvents(s[|s| - 1].id, plans)
  }

  lemma {:induction false} SingletonWindowsEvents(windows: seq<seq<Packet>>, s: seq<Packet>, plans: map<int, seq<Attempt>>)
    requires |windows| == |s| && forall i :: 0 <= i < |s| ==> windows[i] == [s[i]]
    ensures WindowsEvents(windows, plans) == OnePerWindow(s, plans)
  {
    if s != [] {
      var n := |s| - 1;
      var init, p := windows[..n], s[n];
      assert forall i :: 0 <= i < n ==> init[i] == [s[..n][i]];
      SingletonWindowsEvents(init, s[..n], plans);
      assert windows[n] == [] + [p];
      SendsSnocOne([], p, plans);
      assert SendsEvents(windows[n], plans) == PacketEvents(p.id, plans);
    }
  }

  /** A window of one under FCFS opens one window per packet, and window n sends packet n. */
  lemma WindowOfOneSendsInIdOrder(packets: seq<Packet>, plans: map<int, seq<Attempt>>)
    requires NumberedFromOne(packets)
    ensures |Chunks(OrderPackets(packets, "FCFS"), 1)| == |packets|
    ensures forall i :: 0 <= i < |packets| ==>
      Chunks(OrderPackets(packets, "FCFS"), 1)[i] == [packets[i]] && packets[i].id == i + 1
    ensures WindowsEvents(Chunks(OrderPackets(packets, "FCFS"), 1), plans) == OnePerWindow(packets, plans)
  {
    FcfsKeepsGeneratedOrder(packets);
    var c := Chunks(packets, 1);
    ChunksCover(packets, 1);
    ChunksSizes(packets, 1);
    forall b | b in c ensures |b| == 1 {
      var i :| 0 <= i < |c| && c[i] == b;
    }
    SingletonBatches(c, packets);
    SingletonWindowsEvents(c, packets, plans);
  }

  /** The summary block: the header, one line per id of `ids` in that order, and the
      time elapsed from `start` to `finish`. */
  function SummaryLines(records: map<int, Record>, ids: seq<int>, start: int, finish: int): (lines: seq<Event>)
    requires forall i :: 0 <= i < |ids| ==> ids[i] in records
    ensures |lines| == |ids| + 2
  {
    [SummaryHeader] + SummaryEvents(records, ids) + [AllDelivered(finish - start)]
  }

  lemma AppendSummaryLines(before: seq<Event>, records: map<int, Record>, ids: seq<int>, start: int, finish: int)
    requires forall i :: 0 <= i < |ids| ==> ids[i] in records
    ensures before + [SummaryHeader] + SummaryEvents(records, ids) + [AllDelivered(finish - start)]
         == before + SummaryLines(records, ids, start, finish)
  {
  }

  lemma AppendAssociates(a: seq<Event>, b: seq<Event>, c: seq<Event>)
    ensures a + b + c == a + (b + c)
  {
  }

  /** The summary lines "Pacote id: Tempo Total = ... | Espera = ..." for `ids`, in order. */
  function SummaryEvents(records: map<int, Record>, ids: seq<int>): (lines: seq<Event>)
    requires forall i :: 0 <= i < |ids| ==> ids[i] in records
    ensures |lines| == |ids|
    ensures forall i :: 0 <= i < |ids| ==>
      lines[i] == PacketTimes(ids[i], DurationOrZero(records[ids[i]]), records[ids[i]].wait)
  {
    if ids == [] then []
    else
      var id := ids[|ids| - 1];
      SummaryEvents(records, ids[..|ids| - 1]) + [PacketTimes(id, DurationOrZero(records[id]), records[id].wait)]
  }

  lemma IdSetSnoc(s: seq<Packet>, n: nat)
    requires n < |s|
    ensures IdSet(s[..n + 1]) == IdSet(s[..n]) + {s[n].id}
  {
    assert s[..n + 1] == s[..n] + [s[n]];
  }

  /** With distinct ids, the packet at position n does not share its id with any before it. */
  lemma FreshIdAt(s: seq<Packet>, n: nat)
    requires DistinctIds(s) && n < |s|
    ensures s[n].id !in IdSet(s[..n])
  {
    forall p | p in s[..n] ensures p.id != s[n].id {
      var j :| 0 <= j < n && s[..n][j] == p;
      assert s[j] == p;
    }
  }

  /** Every packet id 1..n has a plan in which it is eventually delivered. */
  ghost predicate PlansCover(plans: map<int, seq<Attempt>>, n: int)
  {
    forall id :: 1 <= id <= n ==> id in plans && Delivers(plans[id])
  }

  /** What a run sends: `ordered` lists packet ids 1..n once each, and every one of
      them has a plan that delivers. */
  ghost predicate Schedule(ordered: seq<Packet>, plans: map<int, seq<Attempt>>, n: int)
  {
    && DistinctIds(ordered)
    && (forall id :: id in IdSet(ordered) <==> 1 <= id <= n)
    && PlansCover(plans, n)
  }

  /** The record of the packet at position `j` of `s` when the packets of `s` are sent
      one after another from `start`: it starts once every packet before it is
      acknowledged, has waited since `created`, and finishes its own plan's time later. */
  function SentRecord(s: seq<Packet>, j: nat, plans: map<int, seq<Attempt>>, start: int, created: int): Record
    requires j < |s|
  {
    var t := start + SendsTime(s[..j], plans);
    var d := PacketTime(s[j].id, plans);
    Record(t, t - created, Some(t + d), Some(d))
  }

  /** The first `n` packets of `s` were sent one after another from `start`, and the
      table holds the record each got. */
  ghost predicate SentInOrder(records: map<int, Record>, s: seq<Packet>, n: nat,
                              plans: map<int, seq<Attempt>>, start: int, created: int)
    requires n <= |s|
  {
    forall j {:trigger SentRecord(s, j, plans, start, created)} :: 0 <= j < n ==>
      s[j].id in records && records[s[j].id] == SentRecord(s, j, plans, start, created)
  }

  /** The record of a packet sent at `t0` whose plan delivers at `t1`. */
  lemma SentRecordTimes(s: seq<Packet>, j: nat, plans: map<int, seq<Attempt>>, start: int, created: int, t0: int, t1: int)
    requires j < |s| && s[j].id in plans && Delivers(plans[s[j].id])
    requires t0 == start + SendsTime(s[..j], plans) && t1 == t0 + TimeToDelivery(plans[s[j].id])
    ensures SentRecord(s, j, plans, start, created) == Record(t0, t0 - created, Some(t1), Some(t1 - t0))
  {
  }

  /** Sending the next packet of `s` extends the records sent in order by one. */
  lemma SentInOrderSnoc(records: map<int, Record>, s: seq<Packet>, n: nat, plans: map<int, seq<Attempt>>,
                        start: int, created: int)
    requires n < |s| && DistinctIds(s) && SentInOrder(records, s, n, plans, start, created)
    ensures SentInOrder(records[s[n].id := SentRecord(s, n, plans, start, created)], s, n + 1, plans, start, created)
  {
    var after := records[s[n].id := SentRecord(s, n, plans, start, created)];
    forall j | 0 <= j < n + 1
      ensures s[j].id in after && after[s[j].id] == SentRecord(s, j, plans, start, created)
    {
      if j < n {
        var r := SentRecord(s, j, plans, start, created);
        assert s[j].id != s[n].id && s[j].id in records && records[s[j].id] == r;
      }
    }
  }

  /** The timing table once the first `n` packets of `s` were sent one after another
      from `start`: each of them holds the record `SentRecord` gives it. */
  function SentRecords(s: seq<Packet>, n: nat, plans: map<int, seq<Attempt>>, start: int, created: int): map<int, Record>
    requires n <= |s|
  {
    if n == 0 then map[]
    else SentRecords(s, n - 1, plans, start, created)[s[n - 1].id := SentRecord(s, n - 1, plans, start, created)]
  }

  /** That table has exactly the ids of the first `n` packets as keys. */
  lemma {:induction false} SentRecordsKeys(s: seq<Packet>, n: nat, plans: map<int, seq<Attempt>>, start: int, created: int)
    requires n <= |s|
    ensures SentRecords(s, n, plans, start, created).Keys == IdSet(s[..n])
  {
    if n > 0 {
      SentRecordsKeys(s, n - 1, plans, start, created);
      IdSetSnoc(s, n - 1);
    } else {
      assert s[..0] == [];
    }
  }

  /** With distinct ids no later record overwrites an earlier one: the table holds each
      of the first `n` packets' records in order. */
  lemma {:induction false} SentRecordsInOrder(s: seq<Packet>, n: nat, plans: map<int, seq<Attempt>>, start: int, created: int)
    requires n <= |s| && DistinctIds(s)
    ensures SentInOrder(SentRecords(s, n, plans, start, created), s, n, plans, start, created)
  {
    if n > 0 {
      SentRecordsInOrder(s, n - 1, plans, start, created);
      SentInOrderSnoc(SentRecords(s, n - 1, plans, start, created), s, n - 1, plans, start, created);
    }
  }

  /** Once a whole schedule of the ids 1..n is sent, the table holds a record for exactly
      those ids, each in its order, and the clock has moved on by the whole list's time. */
  lemma ScheduleDone(ordered: seq<Packet>, plans: map<int, seq<Attempt>>, start: int, created: int, n: int)
    requires Schedule(ordered, plans, n)
    ensures var records := SentRecords(ordered, |ordered|, plans, start, created);
      && (forall id :: id in records <==> 1 <= id <= n)
      && SentInOrder(records, ordered, |ordered|, plans, start, created)
    ensures SendsTime(ordered[..|ordered|], plans) == SendsTime(ordered, plans)
  {
    assert ordered[..|ordered|] == ordered;
    SentRecordsKeys(ordered, |ordered|, plans, start, created);
    SentRecordsInOrder(ordered, |ordered|, plans, start, created);
  }

  /** Sending the packet at position n of an ordered list with distinct ids, when the
      ones before it were sent in order, opens its record at the current time `t0` and
      closes it at `t1`, exactly its plan's time later; the table then holds the first
      n + 1 packets' records, and the clock their total time. */
  lemma SendExtendsOrder(ordered: seq<Packet>, n: nat, next: nat, plans: map<int, seq<Attempt>>, start: int, created: int,
                         t0: int, t1: int)
    requires n < |ordered| && next == n + 1 && DistinctIds(ordered)
    requires ordered[n].id in plans && Delivers(plans[ordered[n].id])
    requires t0 == start + SendsTime(ordered[..n], plans) && t1 == t0 + TimeToDelivery(plans[ordered[n].id])
    ensures var before, id := SentRecords(ordered, n, plans, start, created), ordered[n].id;
      && id !in before
      && CloseRecord(OpenRecord(before, id, t0, created), id, t1) == SentRecords(ordered, next, plans, start, created)
      && SentRecords(ordered, next, plans, start, created) == before[id := SentRecord(ordered, n, plans, start, created)]
      && t1 == start + SendsTime(ordered[..next], plans)
  {
    var before, id := SentRecords(ordered, n, plans, start, created), ordered[n].id;
    SentRecordsKeys(ordered, n, plans, start, created);
    FreshIdAt(ordered, n);
    PrefixSnoc(ordered, n, plans);
    SentRecordTimes(ordered, n, plans, start, created, t0, t1);
    OpenThenClose(before, id, t0, t1, created);
  }

  /** Opening a record for a new id and closing it later adds exactly the finished record. */
  lemma OpenThenClose(before: map<int, Record>, id: int, t0: int, t1: int, created: int)
    requires id !in before
    ensures CloseRecord(OpenRecord(before, id, t0, created), id, t1)
         == before[id := Record(t0, t0 - created, Some(t1), Some(t1 - t0))]
  {
    var started := before[id := Record(t0, t0 - created, None, None)];
    assert OpenRecord(before, id, t0, created) == started;
    assert started[id := Record(t0, t0 - created, Some(t1), Some(t1 - t0))]
        == before[id := Record(t0, t0 - created, Some(t1), Some(t1 - t0))];
  }

  /** In a run sent one packet after another, each packet starts the moment the one
      before it is acknowledged, so a packet earlier in the dispatch order never waits
      longer than a later one. */
  lemma SentBackToBack(s: seq<Packet>, plans: map<int, seq<Attempt>>, start: int, created: int)
    ensures forall j :: 0 < j < |s| ==>
      SentRecord(s, j, plans, start, created).start == SentRecord(s, j - 1, plans, start, created).finish.value
    ensures forall i, j :: 0 <= i < j < |s| ==>
      SentRecord(s, i, plans, start, created).wait <= SentRecord(s, j, plans, start, created).wait
  {
    forall j | 0 < j < |s|
      ensures SentRecord(s, j, plans, start, created).start == SentRecord(s, j - 1, plans, start, created).finish.value
    {
      PrefixSnoc(s, j - 1, plans);
    }
    forall i, j | 0 <= i < j < |s|
      ensures SentRecord(s, i, plans, start, created).wait <= SentRecord(s, j, plans, start, created).wait
    {
      SendsTimeGrows(s, i, j, plans);
    }
  }

  /** The timing table holds records for packet ids 1..n only, each consistent with the
      clock, and `insertionOrder` lists its keys once each, as a dict keeps them. */
  ghost predicate RecordsValid(records: map<int, Record>, insertionOrder: seq<int>, created: int, clock: int, n: int)
  {
    && Distinct(insertionOrder)
    && (forall id :: id in records <==> id in insertionOrder)
    && (forall id | id in records :: 1 <= id <= n && Consistent(records[id], created, clock))
  }

  class Simulation {
    const windowSize: int             // tamanho_janela
    const totalPackets: int           // total_pacotes
    const policyName: string          // escalonamento
    const createdAt: int              // the clock reading stamped on every packet
    const packets: seq<Packet>        // lista_pacotes
    var sent: int                     // pacotes_enviados
    var confirmed: int                // pacotes_confirmados
    var records: map<int, Record>     // tempos_processamento
    var insertionOrder: seq<int>      // the keys of tempos_processamento in the order a dict keeps them
    var clock: int                    // what time.time() would read
    var log: seq<Event>               // every message handed to the log callback

    /** The packet list is the one generation produced at `createdAt`. */
    predicate Generated()
    {
      && |packets| == PacketCount(totalPackets)
      && NumberedFromOne(packets)
      && (forall i :: 0 <= i < |packets| ==> packets[i].creationTime == createdAt)
    }

    /** The packets are the generated ones, the clock never runs behind their creation
        time, and the timing table is consistent with the clock. */
    ghost predicate Valid()
      reads this`clock, this`records, this`insertionOrder
    {
      && Generated()
      && createdAt <= clock
      && RecordsValid(records, insertionOrder, createdAt, clock, |packets|)
    }

    /** What a run keeps as it goes: the first `n` packets of `ordered` were sent one
        after another from `start`, so the table holds exactly their records and the
        clock has moved on by exactly their time. */
    ghost predicate Timed(ordered: seq<Packet>, n: nat, plans: map<int, seq<Attempt>>, start: int)
      reads this`clock, this`records, this`insertionOrder
    {
      && Valid()
      && n <= |ordered|
      && records == SentRecords(ordered, n, plans, start, createdAt)
      && clock == start + SendsTime(ordered[..n], plans)
    }

    /** Between windows or rounds: the first `n` packets are sent and all are confirmed. */
    ghost predicate Progress(ordered: seq<Packet>, n: nat, plans: map<int, seq<Attempt>>, start: int)
      reads this`clock, this`records, this`insertionOrder, this`sent, this`confirmed
    {
      Timed(ordered, n, plans, start) && sent == confirmed == n
    }

    /** `__init__`: counters at zero, an empty table, and the packets generated at `now`
        from the supplied estimated-time and priority draws. */
    constructor (windowSize: int, totalPackets: int, policyName: string,
                 estimates: seq<real>, priorities: seq<int>, now: int)
      requires |estimates| == |priorities| == PacketCount(totalPackets)
      ensures Valid()
      ensures this.windowSize == windowSize && this.totalPackets == totalPackets
      ensures this.policyName == policyName
      ensures packets == GeneratePackets(totalPackets, estimates, priorities, now)
      ensures createdAt == now && clock == now
      ensures sent == 0 && confirmed == 0
      ensures records == map[] && insertionOrder == [] && log == []
    {
      this.windowSize := windowSize;
      this.totalPackets := totalPackets;
      this.policyName := policyName;
      packets := GeneratePackets(totalPackets, estimates, priorities, now);
      createdAt := now;
      clock := now;
      sent := 0;
      confirmed := 0;
      records := map[];
      insertionOrder := [];
      log := [];
    }

    /** `time.sleep(d)`: the simulated clock moves on by `d`. */
    method Sleep(d: nat)
      requires Valid()
      modifies this`clock
      ensures Valid()
      ensures clock == old(clock) + d
    {
      clock := clock + d;
    }

    /** `self.registrar(message)`: the message is appended to the log. */
    method Emit(e: Event)
      modifies this`log
      ensures log == old(log) + [e]
    {
      log := log + [e];
    }

    /** The head of `enviar_pacote`: look the packet up and, only if its id has no record
        yet, open one with the current time as start and the time since creation as wait. */
    method OpenRecordFor(id: int)
      requires Valid()
      requires 1 <= id <= |packets|
      modifies this`records, this`insertionOrder
      ensures Valid()
      ensures records == OpenRecord(old(records), id, clock, createdAt)
      ensures insertionOrder == if id in old(records) then old(insertionOrder) else old(insertionOrder) + [id]
    {
      FindNumbered(packets, id);
      var packet := FindPacket(packets, id).value;
      if id !in records {
        var start := clock;
        records := records[id := Record(start, start - packet.creationTime, None, None)];
        insertionOrder := insertionOrder + [id];
      }
    }

    /** `confirmar_recebimento`: stamp the end time and the duration since the first
        attempt on this id's record, log the acknowledgement, count one more confirmation. */
    method Confirm(id: int)
      requires Valid()
      requires id in records
      modifies this`records, this`log, this`confirmed
      ensures Valid()
      ensures records == CloseRecord(old(records), id, clock)
      ensures log == old(log) + [AckReceived(id, clock - old(records)[id].start)]
      ensures confirmed == old(confirmed) + 1
    {
      var finish := clock;
      var start := records[id].start;
      var duration := finish - start;
      records := records[id := records[id].(finish := Some(finish), duration := Some(duration))];
      log := log + [AckReceived(id, duration)];
      confirmed := confirmed + 1;
    }

    /** The body of the `with` block of `enviar_pacote` up to the outcome: log the send,
        wait out the latency, log whether the packet arrived or was lost. */
    method Transmit(id: int, a: Attempt)
      requires Valid()
      modifies this`clock, this`log
      ensures Valid()
      ensures clock == old(clock) + a.latency
      ensures log == old(log) + AttemptEvents(id, a)
    {
      Emit(Sending(id));
      Sleep(a.latency);
      if a.Delivered? {
        Emit(DeliveredOk(id));
      } else {
        Emit(LostResending(id));
      }
    }

    /** `enviar_pacote` together with its retry `reenviar_pacote`: the first attempt opens
        the packet's record, the attempts of `plan` run until one is delivered, and the
        acknowledgement closes the record the first attempt opened. */
    method Send(id: int, plan: seq<Attempt>)
      requires Valid()
      requires 1 <= id <= |packets|
      requires Delivers(plan)
      modifies this`clock, this`log, this`records, this`insertionOrder, this`confirmed
      ensures Valid()
      ensures clock == old(clock) + TimeToDelivery(plan)
      ensures records == CloseRecord(OpenRecord(old(records), id, old(clock), createdAt), id, clock)
      ensures id !in old(records) ==> records[id].start == old(clock)
      ensures insertionOrder == if id in old(records) then old(insertionOrder) else old(insertionOrder) + [id]
      ensures confirmed == old(confirmed) + 1
      ensures log == old(log) + DeliveryEvents(id, plan) + [AckReceived(id, clock - records[id].start)]
    {
      OpenRecordFor(id);
      Deliver(id, plan);
      Confirm(id);
    }

    /** The attempts of `enviar_pacote`, the recursion through `reenviar_pacote` turned
        into a loop over the outcomes of `plan`: a lost attempt waits its back-off and
        tries again, and the attempts stop at the first delivered one. Each retry
        re-enters `enviar_pacote`, whose record check finds the id and keeps its record. */
    method Deliver(id: int, plan: seq<Attempt>)
      requires Valid()
      requires 1 <= id <= |packets| && id in records
      requires Delivers(plan)
      modifies this`clock, this`log, this`records, this`insertionOrder
      ensures Valid()
      ensures clock == old(clock) + TimeToDelivery(plan)
      ensures log == old(log) + DeliveryEvents(id, plan)
      ensures records == old(records) && insertionOrder == old(insertionOrder)
    {
      var rest := plan;
      while rest[0].Lost?
        invariant Valid()
        invariant Delivers(rest)
        invariant clock + TimeToDelivery(rest) == old(clock) + TimeToDelivery(plan)
        invariant log + DeliveryEvents(id, rest) == old(log) + DeliveryEvents(id, plan)
        invariant records == old(records) && insertionOrder == old(insertionOrder)
        decreases |rest|
      {
        AppendAssociates(log, AttemptEvents(id, rest[0]), DeliveryEvents(id, rest[1..]));
        Transmit(id, rest[0]);
        Sleep(rest[0].backoff);
        rest := rest[1..];
        OpenRecordFor(id);
      }
      Transmit(id, rest[0]);
    }

    /** One dispatch step shared by both run loops: the packet at position `n` of the
        ordered list is sent to its acknowledgement. Its record is opened now and closed
        after its plan's time, and the log gains its messages. */
    method SendNext(ordered: seq<Packet>, n: nat, plans: map<int, seq<Attempt>>, ghost start: int)
      returns (next: nat)
      requires Timed(ordered, n, plans, start) && n < |ordered|
      requires Schedule(ordered, plans, |packets|)
      modifies this`clock, this`log, this`records, this`insertionOrder, this`confirmed
      ensures next == n + 1
      ensures Timed(ordered, next, plans, start)
      ensures records == old(records)[ordered[n].id := SentRecord(ordered, n, plans, start, createdAt)]
      ensures log == old(log) + PacketEvents(ordered[n].id, plans)
      ensures insertionOrder == old(insertionOrder) + [ordered[n].id]
      ensures confirmed == old(confirmed) + 1
    {
      var id := ordered[n].id;
      assert id in IdSet(ordered);
      next := n + 1;
      Send(id, plans[id]);
      SendExtendsOrder(ordered, n, next, plans, start, createdAt, old(clock), clock);
      PacketLogged(old(log), id, plans, clock - records[id].start, log);
    }

    /** Lines 87-92: admit packets of the ordered list from position `index` on while any
        is left and fewer than `windowSize` are sent but unconfirmed. */
    method FormBatch(ordered: seq<Packet>, index: nat) returns (batch: seq<Packet>, next: nat)
      requires index <= |ordered|
      modifies this`sent
      ensures index <= next <= |ordered| && batch == ordered[index..next]
      ensures sent == old(sent) + |batch|
      ensures batch == [] || sent - confirmed <= windowSize
      ensures |batch| == if old(sent) - confirmed >= windowSize then 0
                         else Min(|ordered| - index, windowSize - (old(sent) - confirmed))
    {
      batch := [];
      next := index;
      while next < |ordered| && sent - confirmed < windowSize
        invariant index <= next <= |ordered|
        invariant batch == ordered[index..next]
        invariant sent == old(sent) + |batch|
        invariant old(sent) - confirmed < windowSize ==> sent - confirmed <= windowSize
        invariant old(sent) - confirmed >= windowSize ==> next == index
        decreases |ordered| - next
      {
        var packet := ordered[next];
        next := next + 1;
        batch := batch + [packet];
        sent := sent + 1;
      }
    }

    /** Lines 94-97: the sender of one packet of the batch runs; `log0` is the log as the
        batch began, and the batch so far is `ordered[first..n]`. */
    method SendFromBatch(ordered: seq<Packet>, first: nat, n: nat, plans: map<int, seq<Attempt>>,
                         ghost start: int, ghost log0: seq<Event>)
      returns (next: nat)
      requires Timed(ordered, n, plans, start) && first <= n < |ordered|
      requires Schedule(ordered, plans, |packets|)
      requires log == log0 + SendsEvents(ordered[first..n], plans)
      modifies this`clock, this`log, this`records, this`insertionOrder, this`confirmed
      ensures next == n + 1
      ensures Timed(ordered, next, plans, start)
      ensures confirmed == old(confirmed) + 1
      ensures log == log0 + SendsEvents(ordered[first..next], plans)
    {
      next := SendNext(ordered, n, plans, start);
      SendsLogStep(log0, ordered, first, n, next, plans, old(log));
    }

    /** Lines 94-100: one worker per packet of the batch `ordered[first..last]`, all
        joined before the next batch forms; taken here as the packets sent one after
        another, in batch order. */
    method SendBatch(ordered: seq<Packet>, first: nat, last: nat, plans: map<int, seq<Attempt>>, ghost start: int)
      requires Timed(ordered, first, plans, start) && first <= last <= |ordered|
      requires Schedule(ordered, plans, |packets|)
      modifies this`clock, this`log, this`records, this`insertionOrder, this`confirmed
      ensures Timed(ordered, last, plans, start)
      ensures confirmed == old(confirmed) + (last - first)
      ensures log == old(log) + SendsEvents(ordered[first..last], plans)
    {
      var n := first;
      while n < last
        invariant first <= n <= last
        invariant Timed(ordered, n, plans, start)
        invariant confirmed == old(confirmed) + n - first
        invariant log == old(log) + SendsEvents(ordered[first..n], plans)
      {
        n := SendFromBatch(ordered, first, n, plans, start, old(log));
      }
      assert n == last;
    }

    /** Lines 183-186: the next packet of the ordered list is sent to its acknowledgement,
        then counted as sent. */
    method SendOne(ordered: seq<Packet>, n: nat, plans: map<int, seq<Attempt>>, ghost start: int)
      returns (next: nat)
      requires Progress(ordered, n, plans, start) && n < |ordered|
      requires Schedule(ordered, plans, |packets|)
      modifies this`clock, this`log, this`records, this`insertionOrder, this`confirmed, this`sent
      ensures next == n + 1
      ensures Progress(ordered, next, plans, start)
      ensures log == old(log) + PacketEvents(ordered[n].id, plans)
    {
      next := SendNext(ordered, n, plans, start);
      sent := sent + 1;
    }

    /** Lines 182-186: one slot of a round. While any packet is left, the next one is
        sent to its acknowledgement and joins the round; otherwise nothing happens.
        `log0` is the log as the round began. */
    method FillSlot(ordered: seq<Packet>, index: nat, slot: nat, next: nat, round: seq<Packet>,
                    plans: map<int, seq<Attempt>>, ghost start: int, ghost log0: seq<Event>)
      returns (next': nat, round': seq<Packet>)
      requires Progress(ordered, next, plans, start)
      requires Schedule(ordered, plans, |packets|)
      requires index <= |ordered| && next == index + Min(slot, |ordered| - index) && round == ordered[index..next]
      requires log == log0 + SendsEvents(round, plans)
      modifies this`clock, this`log, this`records, this`insertionOrder, this`confirmed, this`sent
      ensures Progress(ordered, next', plans, start)
      ensures next' == index + Min(slot + 1, |ordered| - index) && round' == ordered[index..next']
      ensures log == log0 + SendsEvents(round', plans)
    {
      if next < |ordered| {
        var packet := ordered[next];
        next' := SendOne(ordered, next, plans, start);
        SendsLogStep(log0, ordered, index, next, next', plans, old(log));
        round' := round + [packet];
      } else {
        next', round' := next, round;
      }
      RoundSlot(ordered, index, next, next', slot, round);
    }

    /** Lines 181-186: one round of `windowSize` slots, each sending the next packet of
        the ordered list, to its acknowledgement, while any is left. */
    method SendRound(ordered: seq<Packet>, index: nat, plans: map<int, seq<Attempt>>, ghost start: int)
      returns (round: seq<Packet>, next: nat)
      requires windowSize >= 1
      requires Progress(ordered, index, plans, start)
      requires Schedule(ordered, plans, |packets|)
      modifies this`clock, this`log, this`records, this`insertionOrder, this`confirmed, this`sent
      ensures Progress(ordered, next, plans, start)
      ensures next == index + Min(windowSize, |ordered| - index) && round == ordered[index..next]
      ensures log == old(log) + SendsEvents(round, plans)
    {
      round := [];
      next := index;
      for slot := 0 to windowSize
        invariant Progress(ordered, next, plans, start)
        invariant next == index + Min(slot, |ordered| - index) && round == ordered[index..next]
        invariant log == old(log) + SendsEvents(round, plans)
      {
        next, round := FillSlot(ordered, index, slot, next, round, plans, start, old(log));
      }
    }

    /** One pass of the outer loop at lines 85-102: open a window, form its batch and
        send every packet of it. With every earlier packet confirmed, the batch is the
        next min(windowSize, remaining) packets of the ordered list. */
    method WindowStep(ordered: seq<Packet>, index: nat, plans: map<int, seq<Attempt>>, windowNumber: nat, ghost start: int)
      returns (batch: seq<Packet>, next: nat)
      requires windowSize >= 1 && index < |ordered|
      requires Progress(ordered, index, plans, start)
      requires Schedule(ordered, plans, |packets|)
      modifies this`clock, this`log, this`records, this`insertionOrder, this`confirmed, this`sent
      ensures Progress(ordered, next, plans, start)
      ensures next == index + Min(windowSize, |ordered| - index) && batch == ordered[index..next]
      ensures log == old(log) + [WindowOpened(windowNumber)] + SendsEvents(batch, plans)
    {
      Emit(WindowOpened(windowNumber));
      batch, next := FormBatch(ordered, index);
      SendBatch(ordered, index, next, plans, start);
    }

    /** Lines 104-110 (and 188-194): the summary header, one line per record in ascending
        id order, then the elapsed time since `start`. */
    method Summarise(start: int) returns (ids: seq<int>)
      requires Valid()
      modifies this`log
      ensures Ascending(ids)
      ensures forall id :: id in ids <==> id in records
      ensures forall i :: 0 <= i < |ids| ==> ids[i] in records
      ensures log == old(log) + SummaryLines(records, ids, start, clock)
    {
      Emit(SummaryHeader);
      ids := SortedIds();
      EmitTimes(ids);
      Emit(AllDelivered(clock - start));
      AppendSummaryLines(old(log), records, ids, start, clock);
    }

    /** `sorted(self.tempos.items())`: the ids of the timing table in ascending order. */
    function SortedIds(): (ids: seq<int>)
      reads this
      requires Valid()
      ensures Ascending(ids)
      ensures forall id :: id in ids <==> id in records
      ensures forall i :: 0 <= i < |ids| ==> ids[i] in records
    {
      var ids := SortedKeys(insertionOrder);
      assert forall i :: 0 <= i < |ids| ==> ids[i] in ids;
      ids
    }

    /** Line 106: one "Pacote id: Tempo Total = ... | Espera = ..." line per id, in order. */
    method EmitTimes(ids: seq<int>)
      requires forall i :: 0 <= i < |ids| ==> ids[i] in records
      modifies this`log
      ensures log == old(log) + SummaryEvents(records, ids)
    {
      for k := 0 to |ids|
        invariant log == old(log) + SummaryEvents(records, ids[..k])
      {
        var id := ids[k];
        assert ids[..k + 1][..k] == ids[..k];
        Emit(PacketTimes(id, DurationOrZero(records[id]), records[id].wait));
      }
      assert ids[..|ids|] == ids;
    }

    /** The summary of a run that sent every packet lists ids 1..N in this order. */
    method SummariseAll(start: int)
      requires Valid()
      requires forall id :: id in records <==> 1 <= id <= |packets|
      modifies this`log
      ensures log == old(log) + SummaryLines(records, Range(|packets|), start, clock)
    {
      var ids := Summarise(start);
      AscendingRange(ids, |packets|);
    }

    /** The outer loop at lines 85-102: window after window until every packet of the
        ordered list is confirmed. Each window logs its number and sends the next
        min(windowSize, remaining) packets. */
    method SendAllBatches(ordered: seq<Packet>, plans: map<int, seq<Attempt>>, ghost start: int)
      requires windowSize >= 1 && |ordered| == |packets|
      requires Progress(ordered, 0, plans, start)
      requires Schedule(ordered, plans, |packets|)
      modifies this`clock, this`log, this`records, this`insertionOrder, this`confirmed, this`sent
      ensures Progress(ordered, |ordered|, plans, start)
      ensures log == old(log) + WindowsEvents(Chunks(ordered, windowSize), plans)
    {
      var index := 0;
      var windowNumber := 1;
      ghost var windows: seq<seq<Packet>> := [];
      while confirmed < totalPackets
        invariant Progress(ordered, index, plans, start)
        invariant windowNumber == |windows| + 1
        invariant windows + Chunks(ordered[index..], windowSize) == Chunks(ordered, windowSize)
        invariant log == old(log) + WindowsEvents(windows, plans)
        decreases |ordered| - index
      {
        var first := index;
        ghost var before := log;
        var batch;
        batch, index := WindowStep(ordered, index, plans, windowNumber, start);
        ChunksAdvance(windows, ordered, first, index, windowSize);
        WindowLogStep(old(log), windows, windowNumber, batch, plans, before, log);
        windows := windows + [batch];
        windowNumber := windowNumber + 1;
      }
      assert index == |ordered|;
      ChunksDone(windows, ordered, index, windowSize);
    }

    /** The outer loop at lines 180-186: round after round until every packet of the
        ordered list is confirmed. `rounds` holds what each round sent: the next
        min(windowSize, remaining) packets. */
    method SendAllRounds(ordered: seq<Packet>, plans: map<int, seq<Attempt>>, ghost start: int)
      returns (ghost rounds: seq<seq<Packet>>)
      requires windowSize >= 1 && |ordered| == |packets|
      requires Progress(ordered, 0, plans, start)
      requires Schedule(ordered, plans, |packets|)
      modifies this`clock, this`log, this`records, this`insertionOrder, this`confirmed, this`sent
      ensures Progress(ordered, |ordered|, plans, start)
      ensures rounds == Chunks(ordered, windowSize)
      ensures log == old(log) + SendsEvents(ordered, plans)
    {
      var index := 0;
      rounds := [];
      while confirmed < totalPackets
        invariant Progress(ordered, index, plans, start)
        invariant rounds + Chunks(ordered[index..], windowSize) == Chunks(ordered, windowSize)
        invariant log == old(log) + SendsEvents(ordered[..index], plans)
        decreases |ordered| - index
      {
        var first := index;
        ghost var before := log;
        var round;
        round, index := SendRound(ordered, index, plans, start);
        ChunksAdvance(rounds, ordered, first, index, windowSize);
        RoundLogStep(old(log), ordered, first, index, plans, before, log);
        rounds := rounds + [round];
      }
      assert index == |ordered|;
      ChunksDone(rounds, ordered, index, windowSize);
      assert ordered[..index] == ordered;
    }

    /** `executar_simulacao` of `SimulacaoJanelaDeslizante`. A batch admits packets in
        policy order while fewer than `windowSize` are unconfirmed; all of a batch's
        workers are joined before the next batch forms, so each batch is taken here as
        sent one packet after another, each to its acknowledgement. `plans` gives each
        id's attempt outcomes. A window of 0 admits nothing and never ends (a negative
        one is refused by the semaphore's constructor), so the run requires at least one.
        The semaphore is left out: the run is the design without its blocking. */
    method RunWindowed(plans: map<int, seq<Attempt>>)
      requires Valid()
      requires windowSize >= 1
      requires sent == 0 && confirmed == 0 && records == map[]
      requires PlansCover(plans, |packets|)
      modifies this`clock, this`log, this`records, this`insertionOrder, this`confirmed, this`sent
      ensures Valid()
      ensures sent == confirmed == |packets|
      ensures forall id :: id in records <==> 1 <= id <= |packets|
      ensures var ordered := OrderPackets(packets, policyName);
        && SentInOrder(records, ordered, |ordered|, plans, old(clock), createdAt)
        && clock == old(clock) + SendsTime(ordered, plans)
        && log == old(log) + WindowsEvents(Chunks(ordered, windowSize), plans)
                           + SummaryLines(records, Range(|packets|), old(clock), clock)
    {
      var start := clock;
      var ordered := OrderPackets(packets, policyName);
      OrderedIdsAreRange(packets, policyName);
      assert ordered[..0] == [];
      assert Schedule(ordered, plans, |packets|);
      SendAllBatches(ordered, plans, start);
      ScheduleDone(ordered, plans, start, createdAt, |packets|);
      SummariseAll(start);
    }

    /** `executar_simulacao` of `SimulacaoJanelaDeslizanteSemThreads`: each round walks
        `windowSize` slots and sends the next packet of the ordered list in each slot
        while any is left, each to its acknowledgement before the next. A window below
        one sends nothing and never ends, so the run requires at least one. */
    method RunSequential(plans: map<int, seq<Attempt>>)
      requires Valid()
      requires windowSize >= 1
      requires sent == 0 && confirmed == 0 && records == map[]
      requires PlansCover(plans, |packets|)
      modifies this`clock, this`log, this`records, this`insertionOrder, this`confirmed, this`sent
      ensures Valid()
      ensures sent == confirmed == |packets|
      ensures forall id :: id in records <==> 1 <= id <= |packets|
      ensures var ordered := OrderPackets(packets, policyName);
        && SentInOrder(records, ordered, |ordered|, plans, old(clock), createdAt)
        && clock == old(clock) + SendsTime(ordered, plans)
        && log == old(log) + SendsEvents(ordered, plans) + SummaryLines(records, Range(|packets|), old(clock), clock)
    {
      var start := clock;
      var ordered := OrderPackets(packets, policyName);
      OrderedIdsAreRange(packets, policyName);
      assert ordered[..0] == [];
      assert Schedule(ordered, plans, |packets|);
      var rounds := SendAllRounds(ordered, plans, start);
      ScheduleDone(ordered, plans, start, createdAt, |packets|);
      SummariseAll(start);
    }
  }
}
