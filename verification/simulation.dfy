/** The access point driven by the events the discrete-event scheduler
    delivers to it. Three events touch it:
    - `Request`: a station that cleared its backoff calls `request_transmission`;
    - `Start`: a spawned `transmit` process begins (it runs at the instant it
      was spawned; the model lets other events of the same instant come
      first);
    - `Complete`: the wait of a running `transmit` expires.
    The world records, besides the access point itself, what the scheduler
    holds for it (spawned processes not yet begun, transmissions waiting on
    their timeout) and the history of what happened, so that properties of
    whole runs can be stated. */
module Simulation {
  import opened Common
  import opened AccessPointModel
  import opened Subsequence

  /** A `transmit` process spawned at time `at`, not yet begun. */
  datatype Spawn = Spawn(req: Req, at: real)

  /** A `transmit` process that has begun: spawned at `spawnedAt`, begun at
      `start`, its wait expiring at `deadline`. */
  datatype Flight = Flight(req: Req, spawnedAt: real, start: real, deadline: real)

  datatype World = World(
    now: real,
    ap: AccessPoint,
    pending: seq<Spawn>,     // spawned, not yet begun, in spawn order
    inFlight: seq<Flight>,   // begun, wait not yet expired
    // history
    accepted: seq<Req>,      // every call of request_transmission
    enqueued: seq<Req>,      // every append to the queue
    dequeued: seq<Req>,      // every pop from the head of the queue
    spawned: seq<Req>,       // every transmit process spawned
    begun: seq<Flight>,      // every transmit process begun
    finished: seq<Flight>)   // every transmit whose wait expired

  datatype Event = Request(req: Req, at: real) | Start | Complete(k: nat)

  function SpawnReqs(ps: seq<Spawn>): seq<Req> {
    seq(|ps|, i requires 0 <= i < |ps| => ps[i].req)
  }

  function FlightReqs(fs: seq<Flight>): seq<Req> {
    seq(|fs|, i requires 0 <= i < |fs| => fs[i].req)
  }

  function Without<T>(s: seq<T>, k: nat): seq<T>
    requires k < |s|
  {
    s[..k] + s[k + 1..]
  }

  /** The world at time 0: a fresh access point and an empty history. */
  function Initial(dataRate: real): World {
    World(0.0, NewAccessPoint(dataRate), [], [], [], [], [], [], [], [])
  }

  /** No running transmission's wait expires before time `t`. */
  predicate NoDeadlineBefore(w: World, t: real) {
    forall i :: 0 <= i < |w.inFlight| ==> t <= w.inFlight[i].deadline
  }

  /** The events the scheduler can deliver in world `w`: time never goes back,
      and it cannot move past a spawned process that has not begun nor past a
      wait that has not expired. Events of the same instant may come in any
      order. */
  predicate Enabled(w: World, e: Event) {
    match e
    case Request(_, at) =>
      w.now <= at && (w.pending != [] ==> at == w.now) && NoDeadlineBefore(w, at)
    case Start =>
      w.pending != []
    case Complete(k) =>
      && k < |w.inFlight|
      && w.now <= w.inFlight[k].deadline
      && (w.pending != [] ==> w.inFlight[k].deadline == w.now)
      && NoDeadlineBefore(w, w.inFlight[k].deadline)
  }

  /** A station calls `request_transmission` at time `at`. */
  function OnRequest(w: World, req: Req, at: real): World {
    var a := RequestTransmission(w.ap, req);
    w.(now := at, ap := a.ap,
       pending := w.pending + (if a.spawn.Some? then [Spawn(req, at)] else []),
       accepted := w.accepted + [req],
       enqueued := w.enqueued + (if a.spawn.Some? then [] else [req]),
       spawned := w.spawned + OptionSeq(a.spawn))
  }

  /** The oldest spawned `transmit` begins, at the current instant. */
  function OnStart(w: World): Result<World>
    requires w.pending != []
  {
    var p := w.pending[0];
    match BeginTransmit(w.ap, p.req)
    case Err(f) => Err(f)
    case Ok(t) =>
      var fl := Flight(p.req, p.at, w.now, w.now + t.delay);
      Ok(w.(ap := t.ap, pending := w.pending[1..],
            inFlight := w.inFlight + [fl], begun := w.begun + [fl]))
  }

  /** The wait of the running transmission `k` expires; the clock moves to
      its deadline. */
  function OnComplete(w: World, k: nat): World
    requires k < |w.inFlight|
  {
    var f := w.inFlight[k];
    var a := EndTransmit(w.ap);
    w.(now := f.deadline, ap := a.ap,
       pending := w.pending + (if a.spawn.Some? then [Spawn(a.spawn.value, f.deadline)] else []),
       inFlight := Without(w.inFlight, k),
       dequeued := w.dequeued + OptionSeq(a.spawn),
       spawned := w.spawned + OptionSeq(a.spawn),
       finished := w.finished + [f])
  }

  /** The world after event `e`, or the fault that aborts the run. */
  function Step(w: World, e: Event): (r: Result<World>)
    requires Enabled(w, e)
    ensures r.Ok? ==> w.now <= r.value.now
    ensures r.Ok? ==> r.value.ap.dataRate == w.ap.dataRate
    ensures !e.Start? ==> r.Ok?
  {
    match e
    case Request(req, at) => Ok(OnRequest(w, req, at))
    case Start => OnStart(w)
    case Complete(k) => Ok(OnComplete(w, k))
  }

  /** `es` is a sequence of events the scheduler can deliver one after the
      other from `w`, up to the end or to the first fault. */
  predicate Schedulable(w: World, es: seq<Event>)
    decreases |es|
  {
    |es| == 0 ||
    (Enabled(w, es[0]) &&
     match Step(w, es[0])
     case Err(_) => true
     case Ok(w') => Schedulable(w', es[1..]))
  }

  /** The world after the events `es`, or the fault that aborted the run. */
  function Run(w: World, es: seq<Event>): (r: Result<World>)
    requires Schedulable(w, es)
    decreases |es|
    ensures r.Ok? ==> w.now <= r.value.now && r.value.ap.dataRate == w.ap.dataRate
  {
    if |es| == 0 then Ok(w)
    else
      match Step(w, es[0])
      case Err(f) => Err(f)
      case Ok(w') => Run(w', es[1..])
  }

  // ---------------------------------------------------------------------
  // The invariant of every reachable world

  /** The queue is first in, first out: what was appended is what was popped
      followed by what is still there. */
  predicate QueueFifo(w: World) {
    w.enqueued == w.dequeued + w.ap.queue
  }

  /** Spawned processes begin in spawn order, and each popped request was
      spawned, in pop order. */
  predicate SpawnOrder(w: World) {
    && w.spawned == FlightReqs(w.begun) + SpawnReqs(w.pending)
    && Subseq(w.dequeued, w.spawned)
  }

  /** Every accepted request is exactly one of: queued, spawned and waiting to
      begin, in flight, finished. */
  predicate Conserved(w: World) {
    multiset(w.accepted)
      == multiset(w.ap.queue) + multiset(SpawnReqs(w.pending))
         + multiset(FlightReqs(w.inFlight)) + multiset(FlightReqs(w.finished))
  }

  /** Every spawned process that has not begun is due at the current instant. */
  predicate PendingDue(w: World) {
    forall i :: 0 <= i < |w.pending| ==> w.pending[i].at == w.now
  }

  /** Each of the transmissions `fs` waits exactly its size divided by `rate`. */
  predicate FlightsLast(fs: seq<Flight>, rate: real) {
    forall i :: 0 <= i < |fs| ==>
      fs[i].start <= fs[i].deadline && (fs[i].deadline - fs[i].start) * rate == fs[i].req.size
  }

  /** Each of the transmissions `fs` began at the instant it was spawned. */
  predicate BegunAtSpawn(fs: seq<Flight>) {
    forall i :: 0 <= i < |fs| ==> fs[i].start == fs[i].spawnedAt
  }

  /** Spawned processes are due now; no running wait has already expired;
      every transmission began at the instant it was spawned, and every one
      that has begun, whether still running or finished, lasts exactly its
      size divided by the data rate. */
  predicate Timing(w: World) {
    && PendingDue(w)
    && NoDeadlineBefore(w, w.now)
    && FlightsLast(w.inFlight, w.ap.dataRate)
    && FlightsLast(w.begun, w.ap.dataRate)
    && BegunAtSpawn(w.begun)
  }

  /** `busy` is only ever set by a running transmission, the transmission
      time is zero whenever the access point is idle, and a request never
      waits in the queue while the access point is idle with nothing about to
      begin. */
  predicate Flags(w: World) {
    && (!w.ap.busy ==> w.ap.transmissionTime == 0.0)
    && (w.ap.busy ==> w.inFlight != [])
    && (w.ap.queue != [] ==> w.ap.busy || w.pending != [])
  }

  predicate Inv(w: World) {
    QueueFifo(w) && SpawnOrder(w) && Conserved(w) && Timing(w) && Flags(w)
  }

  lemma InitialInv(dataRate: real)
    ensures Inv(Initial(dataRate))
  {
    SubseqRefl<Req>([]);
  }

  lemma SpawnReqsAppend(a: seq<Spawn>, b: seq<Spawn>)
    ensures SpawnReqs(a + b) == SpawnReqs(a) + SpawnReqs(b)
  {
  }

  lemma FlightReqsAppend(a: seq<Flight>, b: seq<Flight>)
    ensures FlightReqs(a + b) == FlightReqs(a) + FlightReqs(b)
  {
  }

  lemma FlightReqsWithout(fs: seq<Flight>, k: nat)
    requires k < |fs|
    ensures multiset(FlightReqs(Without(fs, k))) + multiset{fs[k].req} == multiset(FlightReqs(fs))
  {
    assert fs == fs[..k] + [fs[k]] + fs[k + 1..];
    FlightReqsAppend(fs[..k] + [fs[k]], fs[k + 1..]);
    FlightReqsAppend(fs[..k], [fs[k]]);
    FlightReqsAppend(fs[..k], fs[k + 1..]);
  }

  // Request

  lemma RequestKeepsOrder(w: World, req: Req, at: real)
    requires QueueFifo(w) && SpawnOrder(w)
    ensures QueueFifo(OnRequest(w, req, at)) && SpawnOrder(OnRequest(w, req, at))
  {
    var w' := OnRequest(w, req, at);
    if w.ap.busy {
      assert w'.ap.queue == w.ap.queue + [req];
      assert w'.enqueued == w.enqueued + [req];
      assert w'.pending == w.pending && w'.spawned == w.spawned;
    } else {
      var s := Spawn(req, at);
      assert w'.pending == w.pending + [s];
      assert w'.spawned == w.spawned + [req];
      SpawnReqsAppend(w.pending, [s]);
      assert SpawnReqs([s]) == [req];
      SubseqAppendRight(w.dequeued, w.spawned, req);
    }
  }

  lemma RequestKeepsConserved(w: World, req: Req, at: real)
    requires Conserved(w)
    ensures Conserved(OnRequest(w, req, at))
  {
    var w' := OnRequest(w, req, at);
    assert w'.accepted == w.accepted + [req];
    if w.ap.busy {
      assert w'.ap.queue == w.ap.queue + [req];
      assert w'.pending == w.pending;
    } else {
      var s := Spawn(req, at);
      assert w'.pending == w.pending + [s];
      assert w'.ap.queue == w.ap.queue;
      SpawnReqsAppend(w.pending, [s]);
      assert SpawnReqs([s]) == [req];
    }
  }

  lemma RequestKeepsTiming(w: World, req: Req, at: real)
    requires Timing(w) && Enabled(w, Request(req, at))
    ensures Timing(OnRequest(w, req, at))
  {
  }

  lemma RequestKeepsInv(w: World, req: Req, at: real)
    requires Inv(w) && Enabled(w, Request(req, at))
    ensures Inv(OnRequest(w, req, at))
  {
    RequestKeepsOrder(w, req, at);
    RequestKeepsConserved(w, req, at);
    RequestKeepsTiming(w, req, at);
  }

  // Start

  lemma StartKeepsOrder(w: World)
    requires SpawnOrder(w) && QueueFifo(w) && w.pending != [] && OnStart(w).Ok?
    ensures SpawnOrder(OnStart(w).value) && QueueFifo(OnStart(w).value)
  {
    var w' := OnStart(w).value;
    var p := w.pending[0];
    var fl := w'.begun[|w.begun|];
    assert w'.begun == w.begun + [fl];
    assert w.pending == [p] + w'.pending;
    SpawnReqsAppend([p], w'.pending);
    FlightReqsAppend(w.begun, [fl]);
  }

  lemma StartKeepsConserved(w: World)
    requires Conserved(w) && w.pending != [] && OnStart(w).Ok?
    ensures Conserved(OnStart(w).value)
  {
    var w' := OnStart(w).value;
    var p := w.pending[0];
    var fl := w'.inFlight[|w.inFlight|];
    assert w'.inFlight == w.inFlight + [fl];
    assert w.pending == [p] + w'.pending;
    SpawnReqsAppend([p], w'.pending);
    FlightReqsAppend(w.inFlight, [fl]);
  }

  lemma StartKeepsTiming(w: World)
    requires Timing(w) && w.pending != [] && OnStart(w).Ok?
    ensures Timing(OnStart(w).value)
  {
    var w' := OnStart(w).value;
    var t := BeginTransmit(w.ap, w.pending[0].req).value;
    var fl := Flight(w.pending[0].req, w.pending[0].at, w.now, w.now + t.delay);
    assert w'.inFlight == w.inFlight + [fl];
    assert w'.begun == w.begun + [fl];
  }

  lemma StartKeepsInv(w: World)
    requires Inv(w) && w.pending != [] && OnStart(w).Ok?
    ensures Inv(OnStart(w).value)
  {
    StartKeepsOrder(w);
    StartKeepsConserved(w);
    StartKeepsTiming(w);
  }

  // Complete

  lemma CompleteKeepsOrder(w: World, k: nat)
    requires QueueFifo(w) && SpawnOrder(w) && k < |w.inFlight|
    ensures QueueFifo(OnComplete(w, k)) && SpawnOrder(OnComplete(w, k))
  {
    var w' := OnComplete(w, k);
    assert w'.begun == w.begun && w'.enqueued == w.enqueued;
    if w.ap.queue == [] {
      assert w'.pending == w.pending && w'.spawned == w.spawned && w'.dequeued == w.dequeued;
    } else {
      var h := w.ap.queue[0];
      var s := Spawn(h, w.inFlight[k].deadline);
      assert w'.pending == w.pending + [s];
      assert w'.spawned == w.spawned + [h];
      assert w'.dequeued == w.dequeued + [h];
      assert w'.ap.queue == w.ap.queue[1..];
      SpawnReqsAppend(w.pending, [s]);
      assert SpawnReqs([s]) == [h];
      SubseqAppendBoth(w.dequeued, w.spawned, h);
      assert w.ap.queue == [h] + w'.ap.queue;
    }
  }

  lemma CompleteKeepsConserved(w: World, k: nat)
    requires Conserved(w) && k < |w.inFlight|
    ensures Conserved(OnComplete(w, k))
  {
    var w' := OnComplete(w, k);
    var f := w.inFlight[k];
    assert w'.accepted == w.accepted;
    assert w'.inFlight == Without(w.inFlight, k);
    assert w'.finished == w.finished + [f];
    FlightReqsWithout(w.inFlight, k);
    FlightReqsAppend(w.finished, [f]);
    assert FlightReqs([f]) == [f.req];
    if w.ap.queue == [] {
      assert w'.pending == w.pending && w'.ap.queue == w.ap.queue;
    } else {
      var h := w.ap.queue[0];
      var s := Spawn(h, f.deadline);
      assert w'.pending == w.pending + [s];
      assert w'.ap.queue == w.ap.queue[1..];
      SpawnReqsAppend(w.pending, [s]);
      assert SpawnReqs([s]) == [h];
      assert w.ap.queue == [h] + w'.ap.queue;
    }
  }

  lemma WithoutIndex<T>(s: seq<T>, k: nat, i: nat)
    requires k < |s| && i < |s| - 1
    ensures Without(s, k)[i] == if i < k then s[i] else s[i + 1]
  {
  }

  lemma WithoutKeepsFlightsLast(fs: seq<Flight>, rate: real, k: nat)
    requires FlightsLast(fs, rate) && k < |fs|
    ensures FlightsLast(Without(fs, k), rate)
  {
    forall i | 0 <= i < |Without(fs, k)|
      ensures Without(fs, k)[i] in fs
    {
      WithoutIndex(fs, k, i);
    }
  }

  lemma CompleteKeepsTiming(w: World, k: nat)
    requires Timing(w) && Enabled(w, Complete(k))
    ensures Timing(OnComplete(w, k))
  {
    var w' := OnComplete(w, k);
    var d := w.inFlight[k].deadline;
    assert w'.now == d && w'.begun == w.begun && w'.ap.dataRate == w.ap.dataRate;
    assert w'.inFlight == Without(w.inFlight, k);
    WithoutKeepsFlightsLast(w.inFlight, w.ap.dataRate, k);
    forall i | 0 <= i < |w'.inFlight|
      ensures d <= w'.inFlight[i].deadline
    {
      WithoutIndex(w.inFlight, k, i);
    }
    assert PendingDue(w');
  }

  lemma CompleteKeepsFlags(w: World, k: nat)
    requires Flags(w) && k < |w.inFlight|
    ensures Flags(OnComplete(w, k))
  {
  }

  lemma CompleteKeepsInv(w: World, k: nat)
    requires Inv(w) && Enabled(w, Complete(k))
    ensures Inv(OnComplete(w, k))
  {
    CompleteKeepsOrder(w, k);
    CompleteKeepsConserved(w, k);
    CompleteKeepsTiming(w, k);
    CompleteKeepsFlags(w, k);
  }

  /** Every event the scheduler can deliver keeps the invariant. */
  lemma StepKeepsInv(w: World, e: Event)
    requires Inv(w) && Enabled(w, e) && Step(w, e).Ok?
    ensures Inv(Step(w, e).value)
  {
    match e
    case Request(req, at) => RequestKeepsInv(w, req, at);
    case Start => StartKeepsInv(w);
    case Complete(k) => CompleteKeepsInv(w, k);
  }

  lemma {:induction false} RunKeepsInv(w: World, es: seq<Event>)
    requires Inv(w) && Schedulable(w, es)
    ensures Run(w, es).Ok? ==> Inv(Run(w, es).value)
    decreases |es|
  {
    if |es| > 0 {
      var r := Step(w, es[0]);
      if r.Ok? {
        StepKeepsInv(w, es[0]);
        RunKeepsInv(r.value, es[1..]);
      }
    }
  }

  /** Every world a run reaches from the initial one satisfies the invariant. */
  lemma Reachable(dataRate: real, es: seq<Event>)
    requires Schedulable(Initial(dataRate), es)
    ensures Run(Initial(dataRate), es).Ok? ==> Inv(Run(Initial(dataRate), es).value)
  {
    InitialInv(dataRate);
    RunKeepsInv(Initial(dataRate), es);
  }

  // ---------------------------------------------------------------------
  // Properties of whole runs

  /** First in, first out: the requests appended to the queue appear, in the
      order they were appended, within the sequence "transmissions begun, in
      the order they began; then spawned transmissions about to begin; then
      the queue". So a queued request never begins service before one that
      was queued ahead of it. */
  lemma FifoService(dataRate: real, es: seq<Event>)
    requires Schedulable(Initial(dataRate), es)
    ensures Run(Initial(dataRate), es).Ok? ==>
      var w := Run(Initial(dataRate), es).value;
      Subseq(w.enqueued, FlightReqs(w.begun) + SpawnReqs(w.pending) + w.ap.queue)
  {
    Reachable(dataRate, es);
    var r := Run(Initial(dataRate), es);
    if r.Ok? {
      var w := r.value;
      SubseqAppendSeq(w.dequeued, w.spawned, w.ap.queue);
    }
  }

  /** No request is lost or duplicated: every request the access point ever
      accepted is, exactly once, queued, about to begin, in flight or
      finished. */
  lemma Conservation(dataRate: real, es: seq<Event>)
    requires Schedulable(Initial(dataRate), es)
    ensures Run(Initial(dataRate), es).Ok? ==> Conserved(Run(Initial(dataRate), es).value)
  {
    Reachable(dataRate, es);
  }

  /** Completion hands the medium to exactly the head of the queue, at the
      instant of completion: the head is spawned at the deadline, the clock
      stands at the deadline, and the rest of the queue keeps its order. */
  lemma Handoff(w: World, k: nat)
    requires Inv(w) && Enabled(w, Complete(k)) && w.ap.queue != []
    ensures
      var w' := Step(w, Complete(k)).value;
      && w'.now == w.inFlight[k].deadline
      && w'.pending == w.pending + [Spawn(w.ap.queue[0], w'.now)]
      && w'.ap.queue == w.ap.queue[1..]
      && !w'.ap.busy
  {
  }

  /** No gap between transmissions: a transmission spawned by a completion
      begins at that completion's instant, because every transmission begins
      at the instant it was spawned. */
  lemma NoGap(dataRate: real, es: seq<Event>)
    requires Schedulable(Initial(dataRate), es)
    ensures Run(Initial(dataRate), es).Ok? ==>
      var w := Run(Initial(dataRate), es).value;
      && (forall i :: 0 <= i < |w.begun| ==> w.begun[i].start == w.begun[i].spawnedAt)
      && (forall i :: 0 <= i < |w.pending| ==> w.pending[i].at == w.now)
  {
    Reachable(dataRate, es);
  }

  /** Every size the access point may still have to divide is non-negative. */
  predicate SizesNonNegative(w: World) {
    && (forall i :: 0 <= i < |w.ap.queue| ==> w.ap.queue[i].size >= 0.0)
    && (forall i :: 0 <= i < |w.pending| ==> w.pending[i].req.size >= 0.0)
  }

  /** With a positive data rate and non-negative packet sizes (the generator
      draws them from an exponential distribution), a run never faults. */
  lemma {:induction false} NoFaultForValidSizes(w: World, es: seq<Event>)
    requires Schedulable(w, es) && w.ap.dataRate > 0.0 && SizesNonNegative(w)
    requires forall i :: 0 <= i < |es| ==> es[i].Request? ==> es[i].req.size >= 0.0
    ensures Run(w, es).Ok?
    decreases |es|
  {
    if |es| > 0 {
      var r := Step(w, es[0]);
      var w' := r.value;
      if es[0].Complete? {
        assert w.ap.queue == OptionSeq(EndTransmit(w.ap).spawn) + w'.ap.queue;
        assert forall i :: 0 <= i < |w'.ap.queue| ==> w'.ap.queue[i] == w.ap.queue[i + |w.ap.queue| - |w'.ap.queue|];
      }
      assert SizesNonNegative(w');
      NoFaultForValidSizes(w', es[1..]);
    }
  }
}
