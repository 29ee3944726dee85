/** Packets of the sliding-window simulator and their generation
    (`gerar_pacotes` and the packet lookup at the head of `enviar_pacote`). */
module Packets {

  datatype Option<T> = None | Some(value: T)

  /** One unit to transmit. `estimatedTime` and `priority` are random draws in the
      source (uniform in [0.5, 2.0) and in 1..10); here they are supplied by the caller.
      `creationTime` is a reading of the simulated clock. */
  datatype Packet = Packet(id: int, estimatedTime: real, priority: int, creationTime: int)

  /** Number of packets `range(1, total + 1)` produces: none for a non-positive total. */
  function PacketCount(total: int): (n: nat)
    ensures total <= 0 ==> n == 0
    ensures total > 0 ==> n == total
  {
    if total <= 0 then 0 else total
  }

  function IdSet(s: seq<Packet>): set<int>
  {
    set p | p in s :: p.id
  }

  /** Packet ids are 1, 2, ..., |s| in this order. */
  predicate NumberedFromOne(s: seq<Packet>)
  {
    forall i :: 0 <= i < |s| ==> s[i].id == i + 1
  }

  /** Builds packets 1..total in order, all stamped with the one creation time `now`;
      the i-th estimate and priority draw go to packet i + 1. */
  function GeneratePackets(total: int, estimates: seq<real>, priorities: seq<int>, now: int): (r: seq<Packet>)
    requires |estimates| == |priorities| == PacketCount(total)
    ensures |r| == PacketCount(total)
    ensures NumberedFromOne(r)
    ensures forall i :: 0 <= i < |r| ==> r[i].creationTime == now
    ensures forall i :: 0 <= i < |r| ==> r[i].estimatedTime == estimates[i] && r[i].priority == priorities[i]
  {
    seq(PacketCount(total), i requires 0 <= i < PacketCount(total) =>
      Packet(i + 1, estimates[i], priorities[i], now))
  }

  /** The generated ids are exactly {1, ..., total}: no gaps and no duplicates. */
  lemma GeneratedIdsAreRange(total: int, estimates: seq<real>, priorities: seq<int>, now: int)
    requires |estimates| == |priorities| == PacketCount(total)
    ensures var r := GeneratePackets(total, estimates, priorities, now);
      && (forall id :: id in IdSet(r) <==> 1 <= id <= total)
      && forall i, j :: 0 <= i < j < |r| ==> r[i].id < r[j].id
  {
    var r := GeneratePackets(total, estimates, priorities, now);
    forall id | 1 <= id <= total ensures id in IdSet(r) {
      assert r[id - 1].id == id;
    }
  }

  /** No element occurs twice. */
  predicate Distinct<T(==)>(s: seq<T>)
  {
    forall i, j :: 0 <= i < |s| && 0 <= j < |s| && i != j ==> s[i] != s[j]
  }

  /** No two packets of the list share an id. */
  predicate DistinctIds(s: seq<Packet>)
  {
    forall i, j :: 0 <= i < |s| && 0 <= j < |s| && i != j ==> s[i].id != s[j].id
  }

  /** In a list numbered from one, a packet is found at the position its id names. */
  lemma NumberedMember(s: seq<Packet>, p: Packet)
    requires NumberedFromOne(s) && p in s
    ensures 1 <= p.id <= |s| && s[p.id - 1] == p
  {
    var k :| 0 <= k < |s| && s[k] == p;
  }

  /** Position of the first packet carrying `id`, or |s| when none does. */
  function FirstWithId(s: seq<Packet>, id: int): (k: nat)
    ensures k <= |s|
    ensures k < |s| ==> s[k].id == id
    ensures forall j :: 0 <= j < k ==> s[j].id != id
  {
    if s == [] then 0
    else if s[0].id == id then 0
    else 1 + FirstWithId(s[1..], id)
  }

  /** `next(p for p in lista_pacotes if p["id"] == id)`: the first packet carrying `id`,
      or None where Python's `next` would raise StopIteration. */
  function FindPacket(s: seq<Packet>, id: int): (r: Option<Packet>)
    ensures r.None? <==> id !in IdSet(s)
    ensures r.Some? ==> r.value in s && r.value.id == id
    ensures r.Some? ==> exists k :: 0 <= k < |s| && s[k] == r.value && forall j :: 0 <= j < k ==> s[j].id != id
  {
    var k := FirstWithId(s, id);
    if k < |s| then Some(s[k])
    else
      assert forall p :: p in s ==> p.id != id;
      None
  }

  /** In a list numbered from one, looking up id k yields the packet at position k - 1. */
  lemma {:induction false} FindNumbered(s: seq<Packet>, id: int)
    requires NumberedFromOne(s)
    ensures 1 <= id <= |s| ==> FindPacket(s, id) == Some(s[id - 1])
    ensures !(1 <= id <= |s|) ==> FindPacket(s, id) == None
  {
    if 1 <= id <= |s| {
      var r := FindPacket(s, id);
      assert s[id - 1].id == id;
      assert id in IdSet(s);
      var k :| 0 <= k < |s| && s[k] == r.value && forall j :: 0 <= j < k ==> s[j].id != id;
      assert s[k].id == k + 1;
    } else {
      assert id !in IdSet(s);
    }
  }
}
