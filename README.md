# Sliding-window transmission simulator — Dafny model

`projeto.py` simulates a sliding-window sender. It generates N packets, orders them by a
scheduling policy (FCFS, SJF or PS), and dispatches them in windows of at most
`tamanho_janela` unconfirmed packets. Each send can be lost and is then retried until it
gets through. A per-packet timing table (`tempos_processamento`) records when each packet
was first sent, how long it waited and how long it took to be acknowledged. The run ends
with a summary listing every packet in ascending id order.

The file holds two classes with the same state and the same per-packet operations:
`SimulacaoJanelaDeslizante`, which runs each window's packets on threads, and
`SimulacaoJanelaDeslizanteSemThreads`, which runs them one after another. Lines 124-173
of the second class repeat lines 25-75 of the first, minus the semaphore. The model
therefore has one class, `Simulation.Simulation`, with one run method per variant.
Rows below cite the first class; the same contract holds for the repeated lines.

The model is split into five modules:

- `Packets` covers packet generation (`gerar_pacotes`) and the packet lookup at the head
  of `enviar_pacote`. Pure functions.
- `Scheduling` covers `ordenar_pacotes`: a stable insertion sort by the policy's key, or
  the list itself for an unknown policy name. Pure functions and lemmas about
  sortedness, permutation and stability.
- `Metrics` covers the timing table: opening a record on the first attempt, closing it on
  the acknowledgement, and listing the ids in ascending order for the summary.
- `Transmission` covers one packet's attempts. The random loss draws and sleep lengths
  become an injected plan of outcomes, a sequence of `Lost(latency, backoff)` and
  `Delivered(latency)`. The functions give the time and the log messages such a plan
  produces.
- `Simulation` is a class whose fields are the simulator's state: counters, timing table,
  simulated clock and message log. Its methods change that state in place. The retry
  recursion of `enviar_pacote`/`reenviar_pacote` becomes a loop over the plan. Each
  dispatch loop of `executar_simulacao` becomes a `while` loop with its invariants.
  `time.time()` becomes the `clock` field, which only the simulated sleeps advance. The
  log callback becomes a `log` sequence of abstract events.

## Model

| member | source | states |
|---|---|---|
| Packets.PacketCount | projeto.py:32 | `range(1, total + 1)` yields no packets for a non-positive total and `total` packets otherwise |
| Packets.GeneratePackets | projeto.py:25-32 | exactly PacketCount(total) packets; packet i carries id i + 1 and the i-th estimate and priority draw; all carry the one creation time |
| Packets.GeneratedIdsAreRange | projeto.py:27-32 | the generated ids are exactly {1..total}, strictly increasing along the list (no gaps, no duplicates) |
| Packets.FirstWithId | projeto.py:44 | the position of the first packet carrying the id, or the list length when none does |
| Packets.FindPacket | projeto.py:44 | `next(...)` finds a packet exactly when the id occurs in the list; the result is the first packet carrying that id; a missing id gives None where Python raises |
| Packets.FindNumbered | projeto.py:44 | on a list numbered from one, looking up id k gives the packet at position k - 1, and any id outside 1..N gives None |
| Scheduling.PolicyNamed | projeto.py:35-41 | each of "FCFS", "SJF", "PS" selects its policy if and only if the name is that string; any other name is unrecognised |
| Scheduling.KeyOrder | projeto.py:35-40 | the sort keys compare as the source's lambdas do: FCFS by id, SJF by estimated time, PS by priority with the higher first (the key is the negated priority), each as an if-and-only-if; an unrecognised policy ranks all packets alike |
| Scheduling.Insert | projeto.py:36-40 | one insertion step of the stable sort: adds exactly the one packet and keeps a sorted list sorted |
| Scheduling.SortBy | projeto.py:36-40 | `sorted` by the policy key: a permutation of the input, non-decreasing in the key |
| Scheduling.OrderPackets | projeto.py:34-41 | `ordenar_pacotes` returns the same multiset of packets under every policy name |
| Scheduling.InsertKeyClass | projeto.py:36-40 | inserting a packet puts it ahead of every packet with an equal key that is already in the list |
| Scheduling.SortByIsStable | projeto.py:36-40 | for every key value, the packets with that key keep their input order (Python's `sorted` is stable) |
| Scheduling.OrderIsPermutation | projeto.py:34-41 | every policy's output has the input's length, multiset and members |
| Scheduling.OrderIsSortedAndStable | projeto.py:34-40 | FCFS output is non-decreasing in id, SJF output non-decreasing in estimated time, PS output non-increasing in priority, and every recognised policy keeps ties in input order |
| Scheduling.OrderUnrecognisedIsIdentity | projeto.py:41 | an unrecognised policy name returns the input list unchanged |
| Scheduling.SortBySortedIsIdentity | projeto.py:36 | sorting a list already sorted by the key returns it unchanged |
| Scheduling.FcfsKeepsGeneratedOrder | projeto.py:35-36 | FCFS applied to freshly generated packets returns them unchanged, with ids strictly increasing |
| Scheduling.DistinctCountsOnce | projeto.py:36-40 | in a list without repeated packets each packet occurs at most once in its multiset |
| Scheduling.PermutationDistinct | projeto.py:36-40 | a reordering (same multiset) of a list without repeated packets has no repeated packets either |
| Scheduling.PermutedIdsAreRange | projeto.py:34-41 | any reordering of packets numbered 1..N has N packets, distinct ids, and carries exactly the ids 1..N |
| Scheduling.OrderedIdsAreRange | projeto.py:34-41 | whatever the policy, the ordered list has N packets carrying every id 1..N exactly once |
| Scheduling.SortInOrderPair | projeto.py:36-40 | two packets already in key order stay in that order |
| Scheduling.InsertSecond | projeto.py:36-40 | a packet whose key lies between two others is inserted between them |
| Scheduling.SortSecondFirst | projeto.py:36-40 | three packets whose keys rank the second, then the first, then the third are sorted into that order |
| Scheduling.PriorityScenario | projeto.py:39-40 | PS on three generated packets with priorities 5, 9, 1 dispatches ids 2, 1, 3 |
| Metrics.OpenRecord | projeto.py:45-50 | a record is added only for an id without one, holding start = now and wait = now - creation time; an existing record and every other id's record are left unchanged |
| Metrics.CloseRecord | projeto.py:62-67 | the id's record gets finish = now and duration = now - start, keeps its start and wait, and no other record changes |
| Metrics.RetryKeepsFirstAttempt | projeto.py:45-50 | a second opening of the same id, at any later clock reading, leaves the first attempt's start and wait in place |
| Metrics.OpenThenCloseConsistent | projeto.py:45-67 | opening at t0 and closing at t1 >= t0 gives a consistent record with wait = t0 - created >= 0 and duration = t1 - t0 >= 0 |
| Metrics.ConsistentIsNonNegative | projeto.py:49-65 | a consistent record never shows a negative wait or duration |
| Metrics.DurationOrZero | projeto.py:107 | `tempos.get("duracao", 0)`: the recorded duration, or 0 when none was recorded |
| Metrics.InsertAscending | projeto.py:106 | inserting a new id into an ascending list keeps it ascending, adds exactly that id, and adds one element |
| Metrics.SortedKeys | projeto.py:106 | `sorted(...items())`: the dict's keys, each once, in strictly ascending order |
| Metrics.Range | projeto.py:106 | the ids 1..n in this order |
| Metrics.AscendingRange | projeto.py:106 | an ascending list of exactly the ids 1..n is the list 1, 2, ..., n |
| Transmission.DeliversIffSomeDelivery | projeto.py:55-60 | the retry chain ends if and only if some attempt of the plan is delivered |
| Transmission.UsedAttempts | projeto.py:55-60 | the attempts actually made are a prefix of the plan: losses only, then exactly one delivery |
| Transmission.DeliveryMatchesUsedAttempts | projeto.py:53-75 | TimeToDelivery, the time from the first attempt to the acknowledgement, is the summed latency and back-off of exactly the attempts used; DeliveryEvents, the messages logged up to the delivery, are exactly those attempts' messages in order |
| Transmission.RetryOnceTiming | projeto.py:54-75 | a packet lost once, then delivered, uses both attempts, and its duration is the first latency plus the back-off plus the second latency |
| Transmission.AttemptsEventsShape | projeto.py:53-59 | AttemptEvents: each attempt logs one "sending" message followed by "delivered" or "lost, resending" according to its outcome, so attempts' messages alternate in pairs |
| Simulation.ChunksCover | projeto.py:84-92 | the windows the ordered list is cut into lay end to end into exactly that list |
| Simulation.ChunksSizes | projeto.py:87-88 | each window holds 1..windowSize packets, and every window but the last exactly windowSize |
| Simulation.SingletonBatches | projeto.py:87-92 | batches of one packet each that lay end to end into a list are that list's packets one by one |
| Simulation.SendsAppend | projeto.py:94-100 | sending one list of packets and then another logs the first list's messages followed by the second's |
| Simulation.SendsTimeGrows | projeto.py:46 | a packet later in the ordered list is never reached earlier: the clock at its first attempt is at least that of any earlier packet |
| Simulation.SingletonWindowsEvents | projeto.py:84-102 | windows of one packet each log one window header per packet, followed by that packet's messages |
| Simulation.WindowOfOneSendsInIdOrder | projeto.py:84-102 | with a window of one under FCFS there are as many windows as packets; window i sends exactly the packet with id i + 1; the log is one header per window followed by that packet's messages |
| Simulation.SummaryEvents | projeto.py:106-109 | one summary line per id, in the given order, with that id's duration (or 0) and wait |
| Simulation.SummaryLines | projeto.py:105-110 | the summary block has one line per id plus the header line and the elapsed-time line |
| Simulation.SentRecordsKeys | projeto.py:45-47 | after the first n packets of the ordered list are sent, the table holds a record for exactly their ids |
| Simulation.SentRecordsInOrder | projeto.py:45-67 | with distinct ids, each of the first n packets' records is the one its own send produced: no later send overwrites it |
| Simulation.ScheduleDone | projeto.py:84-102 | once the whole ordered list of ids 1..N is sent, the table holds exactly the ids 1..N, each with its own send's record |
| Simulation.SendExtendsOrder | projeto.py:43-70 | sending the next packet opens its record at the current clock and closes it its plan's time later; the id had no record before; no other record changes; the clock then stands at the total time of the packets sent so far |
| Simulation.OpenThenClose | projeto.py:45-67 | opening a fresh id's record at t0 and closing it at t1 gives start t0, wait t0 - created, finish t1 and duration t1 - t0, and adds nothing else |
| Simulation.SentBackToBack | projeto.py:183-186 | sent one after another, each packet's first attempt starts when the previous packet is acknowledged, and waits never decrease along the order |
| Simulation.Simulation.constructor | projeto.py:14-32 | counters at zero, empty table, and the packets generated at the construction time from the supplied draws |
| Simulation.Simulation.Sleep | projeto.py:54 | `time.sleep(d)` moves the clock on by exactly d and keeps the state valid |
| Simulation.Simulation.Emit | projeto.py:22 | the log callback appends exactly the one message |
| Simulation.Simulation.OpenRecordFor | projeto.py:44-50 | the table becomes OpenRecord(table, id, now, creation time); the id joins the dict's key order only if it was new |
| Simulation.Simulation.Confirm | projeto.py:62-70 | the table becomes CloseRecord(table, id, now), the ACK message carries now - start, and the confirmed counter grows by exactly 1 |
| Simulation.Simulation.Transmit | projeto.py:53-59 | one attempt logs its two messages and advances the clock by its latency |
| Simulation.Simulation.Send | projeto.py:43-75 | a full send with retries. The clock advances by the plan's time to delivery. The record opened at the first attempt, at the old clock, is closed at the acknowledgement. The log gains the plan's messages and the ACK. Exactly one more confirmation |
| Simulation.Simulation.Deliver | projeto.py:52-60 | the attempts run until the first delivered one: clock and log advance by the plan's time and messages; retries leave the table as it was |
| Simulation.Simulation.SendNext | projeto.py:94-97 | the next packet of the ordered list is sent: its record is exactly the one sending in order gives it, no other record changes, its id joins the key order, the log gains exactly its messages, and one more confirmation |
| Simulation.Simulation.FormBatch | projeto.py:87-92 | the batch is the next contiguous slice of the ordered list. Its size is the smaller of what is left and what the window still admits, so nothing when the window is full. Afterwards sent - confirmed <= window size |
| Simulation.Simulation.SendFromBatch | projeto.py:94-97 | one more packet of the batch is sent: the table and clock cover one more packet of the ordered list and the log covers one more packet of the batch |
| Simulation.Simulation.SendBatch | projeto.py:94-100 | every packet of the batch is sent to its acknowledgement, in batch order: the table and clock then cover the ordered list up to the batch's end, and the log gains exactly the batch's messages |
| Simulation.Simulation.SendOne | projeto.py:183-186 | the next packet of the ordered list is sent to its acknowledgement and then counted as sent; the log gains exactly its messages |
| Simulation.Simulation.FillSlot | projeto.py:181-186 | one slot of a round sends the next packet while any is left, and otherwise does nothing |
| Simulation.Simulation.SendRound | projeto.py:181-186 | a round sends the next min(windowSize, remaining) packets of the ordered list, in order, each to its acknowledgement, and logs exactly their messages |
| Simulation.Simulation.WindowStep | projeto.py:85-100 | one window logs its numbered header first, then sends the next min(windowSize, remaining) packets of the ordered list and logs exactly their messages |
| Simulation.Simulation.SendAllBatches | projeto.py:84-102 | the windows are the ordered list cut into slices of windowSize; every packet is sent and confirmed; the table and clock are those of the whole ordered list sent in order; the log is each window's header followed by its packets' messages |
| Simulation.Simulation.SendAllRounds | projeto.py:180-186 | the rounds are the ordered list cut into slices of windowSize; every packet is sent and confirmed; the table and clock are those of the whole ordered list sent in order; the log is every packet's messages in list order |
| Simulation.Simulation.SortedIds | projeto.py:106 | the table's ids, each once, in strictly ascending order |
| Simulation.Simulation.EmitTimes | projeto.py:106-109 | the log gains exactly the summary lines of the given ids |
| Simulation.Simulation.Summarise | projeto.py:104-110 | the log gains the header, one line per record in ascending id order, and the elapsed time |
| Simulation.Simulation.SummariseAll | projeto.py:104-110 | after a complete run the summary lists ids 1, 2, ..., N in this order |
| Simulation.Simulation.RunWindowed | projeto.py:77-110 | the threaded run: sent == confirmed == N; the table holds exactly the ids 1..N, each record the one that sending the policy order back to back gives it; the clock moves on by the whole list's time; the log is each window's header followed by its packets' messages, then the summary in ascending id order |
| Simulation.Simulation.RunSequential | projeto.py:175-194 | the sequential run: sent == confirmed == N; the table holds exactly the ids 1..N, each record the one that sending the policy order back to back gives it; the clock moves on by the whole list's time; the log is every packet's messages in policy order, then the summary in ascending id order |

## Left out

- Threads, `threading.Semaphore`, `join` and `DummyContextManager` (projeto.py:8-10, 20, 52, 71, 95-100, 151) are not modelled. Because of the join at lines 99-100, each batch is confirmed before the next one forms. The model therefore runs each batch's packets one after another, in batch order.
- Simulation.Simulation.RunWindowed: models the threaded run as designed, without the semaphore. As written, a retry re-enters `with self.semaforo` (lines 52, 60, 75) while the thread still holds its first permit. The retrying thread then waits until some other thread releases a permit, for instance when another packet of the batch is delivered and releases at lines 52 and 71. If no thread ever does, the join at lines 99-100 never returns. A window of 1 whose first packet is lost once hangs this way, because no other thread holds a permit to release. The model's run always ends.
- The semaphore is also released twice per delivered packet, once by `with` and once in `confirmar_recebimento` (lines 52, 71). That only changes which threads block, which the model leaves out.
- Simulation.Simulation.RunWindowed: timings are those of the serialised batch. In the source a batch's packets overlap in time, so their start, wait and finish readings interleave; in the model each packet starts after the previous one is acknowledged.
- `time.time()` and `time.sleep` are replaced by the integer `clock` field. The only things that advance it are the latencies and back-offs of the injected plan, so no other wall-clock time is modelled.
- `random.uniform`, `random.randint` and `random.random` are replaced by injected values. The estimates and priorities are passed to the constructor. Loss outcomes and sleep lengths are passed to the runs as one finite plan per packet id. Their ranges ([0.5, 2.0), 1..10, [0.5, 1.0)) are not enforced.
- Simulation.Simulation.Send: requires a plan that contains a delivery. The source retries without bound, so a run whose draws never deliver does not terminate; the model covers only runs that end.
- Simulation.Simulation.constructor: does not model the ValueError that `threading.Semaphore` raises at line 20 for a negative window in the threaded class. The sequential class (lines 114-122) accepts any window.
- Simulation.Simulation.RunWindowed: requires `windowSize >= 1`. With a window of 0 and at least one packet, no packet is admitted and the source loops forever; a negative window never gets this far, because the constructor raises. Simulation.Simulation.FormBatch still models a full window: it admits nothing.
- Simulation.Simulation.RunSequential: requires `windowSize >= 1`. With any window of 0 or less and at least one packet, `range(tamanho_janela)` is empty and the source loops forever.
- Simulation.Simulation.RunWindowed and Simulation.Simulation.RunSequential: both require a fresh object (counters zero, empty table), as after `__init__`. The source does not guard against a second run on the same object.
- Simulation.Simulation.OpenRecordFor: requires an id in 1..N. The source only sends ids taken from its own packet list. A missing id would raise StopIteration there, which Packets.FindPacket models as None.
- Message texts and their float formatting (`:.2f`) are modelled as abstract `Event` values. Times are integers rather than float seconds.
- The Tkinter interface `InterfaceJanelaDeslizante` and the program entry point (lines 197-255) are presentation only.
- Configuration checks: the source has no checks of its own on the window size or the packet count. Only the threaded class's semaphore rejects a negative window (see the Simulation.Simulation.constructor line). A non-positive total gives no packets, as `range` does.
