# Access-point serialisation in a single-cell 802.11 contention simulation

A Dafny model of the core of a small discrete-event simulation (`main.py`)
of stations contending for one access point. Each station waits a random
backoff of 0 to 63 slots of 9 µs. It then forwards its packet to the access
point if the received power exceeds −80 dBm, and drops it otherwise. The
access point serialises transmissions with a `busy` flag and a
first-in-first-out `station_queue` of `(station, packet_size)` pairs.
`request_transmission` queues a request when the access point is busy and
spawns a `transmit` process when it is idle. `transmit` does four things:

- it sets `busy` and `transmission_time = packet_size / data_rate`;
- it waits that long;
- it clears `busy` and resets `transmission_time` to 0;
- it pops the head of the queue, if there is one, and spawns its `transmit`.

The model is functional: immutable state records and pure transition
functions.

- `common.dfy`: `Common`. Requests `Req(station, size)`, the faults that
  abort a run (division by a zero data rate, a negative delay) and the
  `Result`/`Option` wrappers.
- `access_point.dfy`: `AccessPointModel`. The access point's fields (data
  rate, `busy`, queue, `transmission_time`) and its three transitions:
  `RequestTransmission`, `BeginTransmit` (the start of `transmit`) and
  `EndTransmit` (the expiry of its wait).
- `station.dfy`: `StationModel`. The backoff range, the slot time, the
  −80 dBm threshold and the accept/drop decision. The received power is an
  opaque real input.
- `generator.dfy`: `Generator`. The spawn loop of `packet_generator`, both
  as a recursive function and as a loop.
- `simulation.dfy`: `Simulation`. The access point driven by the three
  events the scheduler delivers to it:
  - `Request`: a station calls `request_transmission`;
  - `Start`: a spawned `transmit` begins;
  - `Complete`: its wait expires.

  A `World` holds the access point, the clock, the spawned processes that
  have not begun, the running transmissions and a history of the run.
  `Enabled` states which events the scheduler can deliver. Time never goes
  back, and it cannot pass a spawned-but-not-begun process or an unexpired
  wait. Spawned processes begin in spawn order: `Start` always begins the
  oldest one. Apart from that, the model lets events at the same instant come
  in any order. `Inv` is the invariant of every reachable world. The whole-run properties are FIFO
  service, conservation of requests and handoff without a gap.
- `prompt_start.dfy`: `PromptStart`. Mutual exclusion of the medium.
  `busy` is set when the spawned `transmit` *begins* (main.py:45), not when
  `request_transmission` spawns it (main.py:57-58). It is also cleared on
  completion (main.py:48) before the successor's process begins
  (main.py:52). So "at most one transmission in flight" is proved only
  under the prompt-start discipline: while a spawned `transmit` has not
  begun, no other event reaches the access point. A concrete trace shows
  that without the discipline two transmissions overlap.
- `subsequence.dfy`: `Subsequence`. In-order embedding of sequences, used
  to state FIFO service.

## Model

| member | source | states |
|---|---|---|
| AccessPointModel.RequestTransmission | main.py:54-58 | When busy, the request is appended to the tail of the queue: the old queue is a prefix and the request is the last element. `busy` is unchanged and nothing is spawned. When idle, the queue is unchanged and exactly one `transmit` is spawned for this request. In both cases the request is either queued or spawned, so nothing is lost or duplicated. |
| AccessPointModel.BeginTransmit | main.py:44-47 | A zero data rate faults with a division error, and a size and rate of opposite signs fault with a negative delay. A positive rate with a non-negative size always succeeds. On success `busy` is set, the queue is untouched, and the wait is non-negative, equal to `transmission_time`, and times the data rate gives back the packet size. |
| AccessPointModel.EndTransmit | main.py:48-52 | `busy` is cleared and `transmission_time` reset to 0. A process is spawned exactly when the queue was non-empty. The spawned request followed by the new queue is exactly the old queue: only the head leaves and the rest keeps its order. |
| StationModel.Resume | main.py:29-33 | The station resumes an integral number of backoff slots after its creation, within 63 slots of 9 µs. It forwards `(station, packet_size)` if and only if the power exceeds −80. |
| StationModel.Deliver | main.py:32-33 | A station's attempt leaves `busy`, `transmission_time` and the data rate as they were. Only a forwarded request can be spawned, and only when the access point is idle. The packets queued or spawned afterwards are exactly those queued before plus the forwarded one, if any: a dropped packet never reaches the access point. |
| StationModel.StationDecision | main.py:26-33 | `request_transmission` is reached iff power > −80. Otherwise the access point state is unchanged and no transmission is spawned. |
| StationModel.ForwardIsRequestEvent | main.py:32-33 | A forwarded attempt delivered by the scheduler is a `Request` event of the run. It does not fault and moves the clock to the station's resume time. It leaves the access point in the state `request_transmission` gives, records the request as accepted, and adds to the processes about to begin exactly the one transmission `request_transmission` spawns, if any. |
| Generator.LaunchesFrom | main.py:61-66 | From iteration `i` at time `t`, the loop spawns `n - i` stations (none when `i >= n`). The `j`-th has index `i + j` and is spawned at `t + j · interval`. |
| Generator.PacketGenerator | main.py:60-66 | The generator faults exactly when it has at least one station to spawn and a negative pause. Otherwise it spawns exactly `max(n, 0)` stations, the `i`-th at time `i · interval`. |
| Generator.Generate | main.py:60-66 | The loop form of the generator returns exactly what the recursive definition `PacketGenerator` returns: the same fault (a negative delay, and only that), and otherwise the same launches in the same order at the same times. |
| Simulation.Step | main.py:44-58 | The clock never goes back, and the data rate never changes. Only the start of a `transmit` can fault. |
| Simulation.Run | main.py:44-58 | Over any schedulable sequence of events, the clock never goes back and the data rate never changes. |
| Simulation.StepKeepsInv | main.py:44-58 | Every deliverable event keeps these properties: the queue is FIFO, spawned processes begin in spawn order, requests are conserved, and the timing is consistent. The timing part says spawned processes are due now, no wait has already expired, each transmission began at the instant it was spawned, and every transmission that has begun, whether still running or finished, lasts size / rate. The flags part says an idle access point has transmission time 0, `busy` implies a running transmission, and a queued request implies the access point is busy or a spawned process is about to begin. |
| Simulation.Reachable | main.py:36-58 | The invariant holds in every world reached from a freshly constructed access point. |
| Simulation.FifoService | main.py:50-56 | The requests appended to the queue appear, in append order, within the sequence of transmissions begun, then spawned processes about to begin, then the queue. A queued request never begins before one queued ahead of it. Requests are compared by value, so the statement relies on requests being distinct, as they are when each station asks once. |
| Simulation.Conservation | main.py:48-58 | Every accepted request is, at every point of a run, exactly one of: queued, spawned and awaiting start, in flight, or finished. The statement is a multiset equality, so nothing is duplicated or lost. |
| Simulation.Handoff | main.py:48-52 | A completion with a non-empty queue moves the clock to the deadline, spawns exactly the queue head at that instant, and leaves the rest of the queue in order with `busy` cleared. |
| Simulation.NoGap | main.py:44-52 | In every reachable world, each transmission began at the instant its process was spawned, and every spawned process not yet begun is due at the current instant. So a successor begins exactly when its predecessor completes. |
| Simulation.NoFaultForValidSizes | main.py:44-47 | A run with a positive data rate and non-negative packet sizes never faults. |
| PromptStart.AtMostOneInFlight | main.py:44-58 | Under the prompt-start discipline, at most one transmission is in flight, and `busy` is set exactly while one is. |
| PromptStart.OverlapWithoutPrompt | main.py:44-58 | Two requests at the same instant, the second before the first `transmit` begins, both see the access point idle, and two transmissions end up in flight. The unconditional exclusion claim does not hold. |
| PromptStart.BusyClearedWhileOnAir | main.py:44-52 | In that overlap, the first completion clears `busy` while the second transmission is still in flight. |

## Left out

- `calculate_distance`, `path_loss` (main.py:5-14) and `shadowing` (main.py:16-17) are left out. They are floating-point `sqrt`/`log10`/Gaussian computations, and the received power enters the model as an opaque real. They are not defined at distance 0: `log10(0)` raises a domain error when a station sits exactly on the access point.
- Random draws are inputs. The backoff is a subset type of 0..63 (main.py:29). Positions (main.py:62-63) are not modelled. Packet sizes (main.py:65) are arbitrary reals, and `NoFaultForValidSizes` covers the non-negative sizes an exponential draw yields.
- The SimPy environment is left out: its process objects, the `run(until=...)` horizon (main.py:71-74) and its tie-break order for same-instant events. Apart from spawned processes beginning in spawn order, the model lets same-instant events come in any order. So the properties proved over all such orders also hold for the scheduler's one order. Stations and access-point events after the horizon are not cut off.
- Whether SimPy always begins a spawned process before any other same-instant event is left out. That would make the prompt-start discipline hold in every run, but it is a property of the library, not of this code.
- Floating-point rounding is left out: all times and durations are exact reals. This covers `packet_size / data_rate`, `backoff * 9e-6` and the scheduler's clock additions. With an interval of 0.1, for instance, SimPy's 8th spawn happens at 0.7999999999999999, where `PacketGenerator` says 0.8.
- The `print` diagnostics (main.py:30), the `simulation` wiring and the `__main__` configuration (main.py:70-79) are left out, as are the positions of the access point and the stations, which only the left-out distance computation reads (main.py:27), and the stored `backoff` field of a station.
- Simulation.FifoService: FIFO is stated by value over `(station, packet_size)` pairs. It does not track request identity, so two equal requests could be matched to each other's positions. In the source every station object is fresh and asks at most once (main.py:61-65), so requests are distinct.
- Liveness, meaning every queued request is eventually served, is left out: the model states safety only. The flags invariant says a queued request never waits while the access point is idle with nothing about to begin.
- A dropped station's own timeout wakes the scheduler. It is not an access-point event and does not appear in `Simulation`.
