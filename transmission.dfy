/** The send/loss/retry lifecycle of one packet (`enviar_pacote`, `reenviar_pacote`),
    described by an injected plan of attempt outcomes instead of random draws and sleeps. */
module Transmission {

  /** One send attempt: the simulated latency slept before the outcome is known and, for a
      lost packet, the back-off slept by `reenviar_pacote` before the next attempt. */
  datatype Attempt = Lost(latency: nat, backoff: nat) | Delivered(latency: nat)

  /** What the simulation hands to its log callback, one value per message. */
  datatype Event =
    | WindowOpened(window: nat)
    | Sending(id: int)
    | DeliveredOk(id: int)
    | LostResending(id: int)
    | AckReceived(id: int, duration: int)
    | SummaryHeader
    | PacketTimes(id: int, duration: int, wait: int)
    | AllDelivered(elapsed: int)

  /** A plan in which the packet eventually gets through. The source retries without
      bound, so only runs whose outcomes contain a delivery ever return. */
  predicate Delivers(plan: seq<Attempt>)
  {
    plan != [] && (plan[0].Delivered? || Delivers(plan[1..]))
  }

  /** A plan gets through exactly when one of its attempts is a delivery. */
  lemma {:induction false} DeliversIffSomeDelivery(plan: seq<Attempt>)
    ensures Delivers(plan) <==> exists i :: 0 <= i < |plan| && plan[i].Delivered?
  {
    if plan != [] && !plan[0].Delivered? {
      DeliversIffSomeDelivery(plan[1..]);
      if exists i :: 0 <= i < |plan| && plan[i].Delivered? {
        var i :| 0 <= i < |plan| && plan[i].Delivered?;
        assert plan[1..][i - 1].Delivered?;
      }
      if exists i :: 0 <= i < |plan[1..]| && plan[1..][i].Delivered? {
        var i :| 0 <= i < |plan[1..]| && plan[1..][i].Delivered?;
        assert plan[i + 1].Delivered?;
      }
    }
  }

  /** Simulated time one attempt takes: its latency, plus the back-off when it was lost. */
  function Delay(a: Attempt): nat
  {
    match a
    case Lost(latency, backoff) => latency + backoff
    case Delivered(latency) => latency
  }

  /** Simulated time a sequence of attempts takes. */
  function TotalDelay(attempts: seq<Attempt>): nat
  {
    if attempts == [] then 0 else Delay(attempts[0]) + TotalDelay(attempts[1..])
  }

  /** The messages one attempt logs: "sending", then "delivered" or "lost, resending". */
  function AttemptEvents(id: int, a: Attempt): seq<Event>
  {
    if a.Delivered? then [Sending(id), DeliveredOk(id)] else [Sending(id), LostResending(id)]
  }

  /** The messages a sequence of attempts logs, attempt after attempt. */
  function AttemptsEvents(id: int, attempts: seq<Attempt>): seq<Event>
  {
    if attempts == [] then [] else AttemptEvents(id, attempts[0]) + AttemptsEvents(id, attempts[1..])
  }

  /** The attempts a plan actually uses: the losses and the one delivery that ends it. */
  function UsedAttempts(plan: seq<Attempt>): (used: seq<Attempt>)
    requires Delivers(plan)
    ensures 1 <= |used| <= |plan| && used == plan[..|used|]
    ensures used[|used| - 1].Delivered?
    ensures forall j :: 0 <= j < |used| - 1 ==> used[j].Lost?
  {
    if plan[0].Delivered? then [plan[0]] else [plan[0]] + UsedAttempts(plan[1..])
  }

  /** Time from the first attempt to the acknowledgement: each lost attempt's latency and
      back-off, then the latency of the delivered one. */
  function TimeToDelivery(plan: seq<Attempt>): nat
    requires Delivers(plan)
  {
    if plan[0].Delivered? then plan[0].latency else Delay(plan[0]) + TimeToDelivery(plan[1..])
  }

  /** The messages a packet logs from its first attempt to its delivery. */
  function DeliveryEvents(id: int, plan: seq<Attempt>): seq<Event>
    requires Delivers(plan)
  {
    if plan[0].Delivered? then AttemptEvents(id, plan[0])
    else AttemptEvents(id, plan[0]) + DeliveryEvents(id, plan[1..])
  }

  /** Delivery takes the summed delay of exactly the attempts the plan uses, and logs
      exactly their messages. */
  lemma {:induction false} DeliveryMatchesUsedAttempts(id: int, plan: seq<Attempt>)
    requires Delivers(plan)
    ensures TimeToDelivery(plan) == TotalDelay(UsedAttempts(plan))
    ensures DeliveryEvents(id, plan) == AttemptsEvents(id, UsedAttempts(plan))
  {
    var used := UsedAttempts(plan);
    if plan[0].Delivered? {
      assert used[1..] == [];
    } else {
      DeliveryMatchesUsedAttempts(id, plan[1..]);
      assert used[1..] == UsedAttempts(plan[1..]);
    }
  }

  /** A packet lost once and delivered on its second attempt takes both latencies and the
      back-off in between, and the wait before its first attempt is not part of it. */
  lemma RetryOnceTiming(lost: nat, backoff: nat, latency: nat)
    ensures Delivers([Lost(lost, backoff), Delivered(latency)])
    ensures TimeToDelivery([Lost(lost, backoff), Delivered(latency)]) == lost + backoff + latency
    ensures UsedAttempts([Lost(lost, backoff), Delivered(latency)]) == [Lost(lost, backoff), Delivered(latency)]
  {
    var plan := [Lost(lost, backoff), Delivered(latency)];
    assert plan[1..] == [Delivered(latency)];
  }

  /** Each attempt logs exactly one "sending" message, followed by its outcome. */
  lemma {:induction false} AttemptsEventsShape(id: int, attempts: seq<Attempt>)
    ensures |AttemptsEvents(id, attempts)| == 2 * |attempts|
    ensures forall j :: 0 <= j < |attempts| ==>
      AttemptsEvents(id, attempts)[2 * j] == Sending(id) &&
      AttemptsEvents(id, attempts)[2 * j + 1] == (if attempts[j].Delivered? then DeliveredOk(id) else LostResending(id))
  {
    if attempts != [] {
      var rest := attempts[1..];
      AttemptsEventsShape(id, rest);
      var all := AttemptsEvents(id, attempts);
      assert all == AttemptEvents(id, attempts[0]) + AttemptsEvents(id, rest);
      forall j | 1 <= j < |attempts|
        ensures all[2 * j] == Sending(id)
        ensures all[2 * j + 1] == (if attempts[j].Delivered? then DeliveredOk(id) else LostResending(id))
      {
        assert all[2 * j] == AttemptsEvents(id, rest)[2 * (j - 1)];
        assert all[2 * j + 1] == AttemptsEvents(id, rest)[2 * (j - 1) + 1];
        assert rest[j - 1] == attempts[j];
      }
    }
  }
}
