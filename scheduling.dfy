/** The scheduling policies of `ordenar_pacotes`: a stable sort of the packet list
    by a policy-chosen key, or the list itself for an unrecognised policy name. */
module Scheduling {
  import opened Packets

  datatype Policy = FCFS | SJF | PS | Unrecognised

  /** The policy named by the configuration string; any other name is unrecognised. */
  function PolicyNamed(name: string): (p: Policy)
    ensures p == FCFS <==> name == "FCFS"
    ensures p == SJF <==> name == "SJF"
    ensures p == PS <==> name == "PS"
  {
    if name == "FCFS" then FCFS
    else if name == "SJF" then SJF
    else if name == "PS" then PS
    else Unrecognised
  }

  /** The sort key of each policy: the id, the estimated time, the negated priority.
      Only comparisons between keys matter, so every key is taken as a real. */
  function Key(policy: Policy, p: Packet): real
  {
    match policy
    case FCFS => p.id as real
    case SJF => p.estimatedTime
    case PS => -(p.priority as real)
    case Unrecognised => 0.0
  }

  /** What each key compares: FCFS orders by id, SJF by estimated time, PS by priority
      with the higher first; an unrecognised policy ranks all packets alike. */
  lemma KeyOrder(policy: Policy, p: Packet, q: Packet)
    ensures policy == FCFS ==> (Key(policy, p) <= Key(policy, q) <==> p.id <= q.id)
    ensures policy == SJF ==> (Key(policy, p) <= Key(policy, q) <==> p.estimatedTime <= q.estimatedTime)
    ensures policy == PS ==> (Key(policy, p) <= Key(policy, q) <==> p.priority >= q.priority)
    ensures policy == Unrecognised ==> Key(policy, p) == Key(policy, q)
  {
  }

  ghost predicate SortedBy(policy: Policy, s: seq<Packet>)
  {
    forall i, j :: 0 <= i < j < |s| ==> Key(policy, s[i]) <= Key(policy, s[j])
  }

  /** The elements of `s` whose key equals `k`, in their order in `s`. */
  function KeyClass(policy: Policy, s: seq<Packet>, k: real): seq<Packet>
  {
    if s == [] then []
    else (if Key(policy, s[0]) == k then [s[0]] else []) + KeyClass(policy, s[1..], k)
  }

  /** A stable reordering keeps, for every key value, the relative order of the
      elements that carry it. */
  ghost predicate StableReordering(policy: Policy, s: seq<Packet>, r: seq<Packet>)
  {
    forall k :: KeyClass(policy, r, k) == KeyClass(policy, s, k)
  }

  /** Inserts `x` in front of the first element whose key is not smaller than its own,
      so that `x` stays ahead of every later element with an equal key. */
  function Insert(policy: Policy, x: Packet, s: seq<Packet>): (r: seq<Packet>)
    ensures multiset(r) == multiset(s) + multiset{x}
    ensures SortedBy(policy, s) ==> SortedBy(policy, r)
  {
    if s == [] || Key(policy, x) <= Key(policy, s[0]) then
      [x] + s
    else
      var rest := Insert(policy, x, s[1..]);
      assert s == [s[0]] + s[1..];
      InsertBehindHead(policy, x, s, rest);
      [s[0]] + rest
  }

  /** When `x` goes past the head of a sorted list, the head still comes first. */
  lemma InsertBehindHead(policy: Policy, x: Packet, s: seq<Packet>, rest: seq<Packet>)
    requires s != [] && Key(policy, s[0]) < Key(policy, x)
    requires multiset(rest) == multiset(s[1..]) + multiset{x}
    requires SortedBy(policy, s[1..]) ==> SortedBy(policy, rest)
    ensures SortedBy(policy, s) ==> SortedBy(policy, [s[0]] + rest)
  {
    if SortedBy(policy, s) {
      forall j | 0 <= j < |rest| ensures Key(policy, s[0]) <= Key(policy, rest[j]) {
        assert rest[j] in multiset(rest);
        if rest[j] != x {
          assert rest[j] in multiset(s[1..]);
          var k :| 0 <= k < |s[1..]| && s[1..][k] == rest[j];
          assert s[k + 1] == rest[j];
        }
      }
      var r := [s[0]] + rest;
      forall i, j | 0 <= i < j < |r| ensures Key(policy, r[i]) <= Key(policy, r[j]) {
        if i > 0 {
          assert r[i] == rest[i - 1] && r[j] == rest[j - 1];
        }
      }
    }
  }

  /** Insertion sort by the policy's key: Python's `sorted`, which is stable. */
  function SortBy(policy: Policy, s: seq<Packet>): (r: seq<Packet>)
    ensures multiset(r) == multiset(s)
    ensures SortedBy(policy, r)
  {
    if s == [] then []
    else
      assert s == [s[0]] + s[1..];
      Insert(policy, s[0], SortBy(policy, s[1..]))
  }

  /** `ordenar_pacotes`: the packet list ordered by the named policy. */
  function OrderPackets(packets: seq<Packet>, name: string): (r: seq<Packet>)
    ensures multiset(r) == multiset(packets)
  {
    var policy := PolicyNamed(name);
    if policy == Unrecognised then packets else SortBy(policy, packets)
  }

  lemma KeyClassCons(policy: Policy, a: Packet, t: seq<Packet>, k: real)
    ensures KeyClass(policy, [a] + t, k) == (if Key(policy, a) == k then [a] else []) + KeyClass(policy, t, k)
  {
    assert ([a] + t)[1..] == t;
  }

  /** Inserting `x` adds it to its key class ahead of the members already there. */
  lemma {:induction false} InsertKeyClass(policy: Policy, x: Packet, s: seq<Packet>, k: real)
    ensures KeyClass(policy, Insert(policy, x, s), k)
         == (if Key(policy, x) == k then [x] else []) + KeyClass(policy, s, k)
  {
    if s == [] || Key(policy, x) <= Key(policy, s[0]) {
      KeyClassCons(policy, x, s, k);
    } else {
      InsertKeyClass(policy, x, s[1..], k);
      PassHeadKeyClass(policy, x, s, Insert(policy, x, s[1..]), k);
    }
  }

  /** The step of InsertKeyClass where `x` goes past the head of `s`: the head's key is
      smaller than that of `x`, so at most one of the two joins the class of `k`. */
  lemma PassHeadKeyClass(policy: Policy, x: Packet, s: seq<Packet>, rest: seq<Packet>, k: real)
    requires s != [] && Key(policy, s[0]) < Key(policy, x)
    requires KeyClass(policy, rest, k) == (if Key(policy, x) == k then [x] else []) + KeyClass(policy, s[1..], k)
    ensures KeyClass(policy, [s[0]] + rest, k)
         == (if Key(policy, x) == k then [x] else []) + KeyClass(policy, s, k)
  {
    var tail := KeyClass(policy, s[1..], k);
    KeyClassCons(policy, s[0], rest, k);
    assert s == [s[0]] + s[1..];
    KeyClassCons(policy, s[0], s[1..], k);
    if Key(policy, x) == k {
      assert KeyClass(policy, s, k) == tail;
      assert KeyClass(policy, [s[0]] + rest, k) == [x] + tail;
    } else {
      assert KeyClass(policy, rest, k) == tail;
    }
  }

  lemma {:induction false} SortByIsStable(policy: Policy, s: seq<Packet>)
    ensures StableReordering(policy, s, SortBy(policy, s))
  {
    if s != [] {
      SortByIsStable(policy, s[1..]);
      forall k ensures KeyClass(policy, SortBy(policy, s), k) == KeyClass(policy, s, k) {
        InsertKeyClass(policy, s[0], SortBy(policy, s[1..]), k);
      }
    }
  }

  /** Every policy is a pure reordering: the same packets, each as often as before. */
  lemma OrderIsPermutation(packets: seq<Packet>, name: string)
    ensures |OrderPackets(packets, name)| == |packets|
    ensures multiset(OrderPackets(packets, name)) == multiset(packets)
    ensures forall p :: p in OrderPackets(packets, name) <==> p in packets
  {
    var r := OrderPackets(packets, name);
    assert |multiset(r)| == |multiset(packets)|;
    forall p ensures p in r <==> p in packets {
      assert p in r <==> p in multiset(r);
      assert p in packets <==> p in multiset(packets);
    }
  }

  /** FCFS orders by non-decreasing id, SJF by non-decreasing estimated time, PS by
      non-increasing priority, and every recognised policy keeps ties in input order. */
  lemma OrderIsSortedAndStable(packets: seq<Packet>, name: string)
    ensures var r := OrderPackets(packets, name);
      && (name == "FCFS" ==> forall i, j :: 0 <= i < j < |r| ==> r[i].id <= r[j].id)
      && (name == "SJF" ==> forall i, j :: 0 <= i < j < |r| ==> r[i].estimatedTime <= r[j].estimatedTime)
      && (name == "PS" ==> forall i, j :: 0 <= i < j < |r| ==> r[i].priority >= r[j].priority)
      && (PolicyNamed(name) != Unrecognised ==> StableReordering(PolicyNamed(name), packets, r))
  {
    var policy := PolicyNamed(name);
    var r := OrderPackets(packets, name);
    if policy != Unrecognised {
      SortByIsStable(policy, packets);
      assert SortedBy(policy, r);
      if policy == PS {
        forall i, j | 0 <= i < j < |r| ensures r[i].priority >= r[j].priority {
          assert Key(PS, r[i]) <= Key(PS, r[j]);
        }
      }
    }
  }

  /** An unrecognised policy name is a pass-through, never an error. */
  lemma OrderUnrecognisedIsIdentity(packets: seq<Packet>, name: string)
    requires name != "FCFS" && name != "SJF" && name != "PS"
    ensures OrderPackets(packets, name) == packets
  {
  }

  /** Sorting an already sorted list leaves it as it is. */
  lemma {:induction false} SortBySortedIsIdentity(policy: Policy, s: seq<Packet>)
    requires SortedBy(policy, s)
    ensures SortBy(policy, s) == s
  {
    if s != [] {
      SortBySortedIsIdentity(policy, s[1..]);
      assert SortBy(policy, s[1..]) == s[1..];
      assert s == [s[0]] + s[1..];
    }
  }

  /** FCFS on a list numbered from one (what packet generation produces) changes nothing,
      so its ids come out as 1, 2, ..., N, strictly increasing. */
  lemma FcfsKeepsGeneratedOrder(packets: seq<Packet>)
    requires NumberedFromOne(packets)
    ensures OrderPackets(packets, "FCFS") == packets
    ensures forall i, j :: 0 <= i < j < |packets| ==> OrderPackets(packets, "FCFS")[i].id < OrderPackets(packets, "FCFS")[j].id
  {
    assert SortedBy(FCFS, packets);
    SortBySortedIsIdentity(FCFS, packets);
  }

  lemma {:induction false} DistinctCountsOnce(s: seq<Packet>)
    requires Distinct(s)
    ensures forall p :: multiset(s)[p] <= 1
  {
    if s != [] {
      var tail := s[1..];
      assert Distinct(tail) by {
        forall i, j | 0 <= i < |tail| && 0 <= j < |tail| && i != j ensures tail[i] != tail[j] {
          assert tail[i] == s[i + 1] && tail[j] == s[j + 1];
        }
      }
      DistinctCountsOnce(tail);
      assert s == [s[0]] + tail;
      forall k | 0 <= k < |tail| ensures tail[k] != s[0] {
        assert tail[k] == s[k + 1];
      }
      assert multiset(tail)[s[0]] == 0;
    }
  }

  lemma RepeatCountsTwice(s: seq<Packet>, i: int, j: int)
    requires 0 <= i < j < |s| && s[i] == s[j]
    ensures multiset(s)[s[i]] >= 2
  {
    assert s == s[..j] + s[j..];
    assert s[..j][i] == s[i];
    assert s[j..][0] == s[j];
  }

  /** A reordering of a list without repeated packets has none either. */
  lemma PermutationDistinct(s: seq<Packet>, r: seq<Packet>)
    requires multiset(s) == multiset(r) && Distinct(s)
    ensures Distinct(r)
  {
    DistinctCountsOnce(s);
    forall i, j | 0 <= i < |r| && 0 <= j < |r| && i != j ensures r[i] != r[j] {
      if r[i] == r[j] {
        if i < j { RepeatCountsTwice(r, i, j); } else { RepeatCountsTwice(r, j, i); }
        assert false;
      }
    }
  }

  /** A reordering of packets numbered 1..N carries every id 1..N exactly once. */
  lemma PermutedIdsAreRange(packets: seq<Packet>, r: seq<Packet>)
    requires NumberedFromOne(packets)
    requires multiset(r) == multiset(packets)
    ensures |r| == |packets|
    ensures DistinctIds(r)
    ensures forall id :: id in IdSet(r) <==> 1 <= id <= |packets|
  {
    assert |multiset(r)| == |multiset(packets)|;
    assert Distinct(packets);
    PermutationDistinct(packets, r);
    forall i | 0 <= i < |r| ensures 1 <= r[i].id <= |packets| && packets[r[i].id - 1] == r[i] {
      assert r[i] in multiset(packets);
      NumberedMember(packets, r[i]);
    }
    forall id | 1 <= id <= |packets| ensures id in IdSet(r) {
      assert packets[id - 1] in multiset(r);
    }
  }

  /** Ordering the generated packets, whatever the policy, yields every id 1..N exactly once. */
  lemma OrderedIdsAreRange(packets: seq<Packet>, name: string)
    requires NumberedFromOne(packets)
    ensures |OrderPackets(packets, name)| == |packets|
    ensures DistinctIds(OrderPackets(packets, name))
    ensures forall id :: id in IdSet(OrderPackets(packets, name)) <==> 1 <= id <= |packets|
  {
    PermutedIdsAreRange(packets, OrderPackets(packets, name));
  }

  lemma SortInOrderPair(policy: Policy, b: Packet, c: Packet)
    requires Key(policy, b) <= Key(policy, c)
    ensures SortBy(policy, [b, c]) == [b, c]
  {
    var one, two := [c], [b, c];
    assert one[0] == c && one[1..] == [];
    assert SortBy(policy, one) == Insert(policy, c, []) == one;
    assert two[0] == b && two[1..] == one;
    assert Insert(policy, b, one) == [b] + one == two;
  }

  lemma InsertSecond(policy: Policy, a: Packet, b: Packet, c: Packet)
    requires Key(policy, b) < Key(policy, a) <= Key(policy, c)
    ensures Insert(policy, a, [b, c]) == [b, a, c]
  {
    assert [b, c][1..] == [c];
  }

  /** Sorting three packets whose keys put the second first and the first second. */
  lemma SortSecondFirst(policy: Policy, a: Packet, b: Packet, c: Packet)
    requires Key(policy, b) < Key(policy, a) <= Key(policy, c)
    ensures SortBy(policy, [a, b, c]) == [b, a, c]
  {
    assert [a, b, c][1..] == [b, c];
    SortInOrderPair(policy, b, c);
    InsertSecond(policy, a, b, c);
  }

  /** Three packets with priorities 5, 9 and 1 leave PS scheduling as ids 2, 1, 3. */
  lemma PriorityScenario(estimates: seq<real>, now: int)
    requires |estimates| == 3
    ensures var r := OrderPackets(GeneratePackets(3, estimates, [5, 9, 1], now), "PS");
      |r| == 3 && r[0].id == 2 && r[1].id == 1 && r[2].id == 3
  {
    var ps := GeneratePackets(3, estimates, [5, 9, 1], now);
    var a, b, c := ps[0], ps[1], ps[2];
    assert a.id == 1 && b.id == 2 && c.id == 3;
    assert a.priority == 5 && b.priority == 9 && c.priority == 1;
    assert ps == [a, b, c];
    assert PolicyNamed("PS") == PS;
    SortSecondFirst(PS, a, b, c);
    assert OrderPackets(ps, "PS") == [b, a, c];
  }
}
