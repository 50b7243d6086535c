/** A station's single attempt: it draws a backoff, waits that many slots and
    then either forwards its packet to the access point or drops it, depending
    on the received power. The power comes out of floating-point path-loss and
    shadowing arithmetic and enters here as an opaque real. */
module StationModel {
  import opened Common
  import opened AccessPointModel
  import Simulation

  /** Duration of one backoff slot (9 microseconds). */
  const SlotTime: real := 0.000009
  /** Largest backoff, in slots; the draw is uniform over 0..63 inclusive. */
  const ContentionWindowMax: int := 63
  /** A packet is forwarded only when the received power exceeds this (dBm). */
  const PowerThreshold: real := -80.0

  /** The range of the backoff draw. */
  type Backoff = b: int | 0 <= b <= ContentionWindowMax

  /** What a station does when its backoff wait expires at time `at`. */
  datatype Attempt = Forward(req: Req, at: real) | Drop(at: real)

  /** The station created at time `created` with packet size `size`, received
      power `power` and backoff `backoff` resumes after `backoff` slots and
      forwards its request exactly when the power clears the threshold. */
  function Resume(id: StationId, size: real, power: real, backoff: Backoff, created: real): (o: Attempt)
    ensures created <= o.at <= created + ContentionWindowMax as real * SlotTime
    ensures (o.at - created) / SlotTime == backoff as real
    ensures o.Forward? <==> power > PowerThreshold
    ensures o.Forward? ==> o.req == Req(id, size)
  {
    var at := created + backoff as real * SlotTime;
    if power > PowerThreshold then Forward(Req(id, size), at) else Drop(at)
  }

  /** The effect of an attempt on the access point: a forwarded packet goes
      through `request_transmission`, a dropped one has no effect at all.
      Either way the flags and the data rate are untouched, only a forwarded
      request can be spawned, and the packets queued or spawned afterwards are
      exactly those queued before plus the forwarded one, if any. */
  function Deliver(ap: AccessPoint, o: Attempt): (a: Admission)
    ensures a.ap.dataRate == ap.dataRate && a.ap.busy == ap.busy
    ensures a.ap.transmissionTime == ap.transmissionTime
    ensures a.spawn.Some? ==> o.Forward? && !ap.busy && a.spawn.value == o.req
    ensures multiset(a.ap.queue) + multiset(OptionSeq(a.spawn))
      == multiset(ap.queue) + multiset(if o.Forward? then [o.req] else [])
  {
    match o
    case Forward(r, _) => RequestTransmission(ap, r)
    case Drop(_) => Admission(ap, None)
  }

  /** `request_transmission` is reached if and only if the power exceeds the
      threshold; otherwise the access point is left exactly as it was and no
      transmission is spawned. */
  lemma StationDecision(ap: AccessPoint, id: StationId, size: real, power: real, backoff: Backoff, created: real)
    ensures power > PowerThreshold ==>
      Deliver(ap, Resume(id, size, power, backoff, created)) == RequestTransmission(ap, Req(id, size))
    ensures power <= PowerThreshold ==>
      Deliver(ap, Resume(id, size, power, backoff, created)) == Admission(ap, None)
  {
  }

  /** A forwarded attempt is exactly a `Request` event of the access point's
      run: when the scheduler can deliver it, it does not fault, it leaves
      the access point as `Deliver` says, it is recorded as accepted, and it
      adds exactly the spawn `Deliver` reports to the processes about to
      begin. */
  lemma ForwardIsRequestEvent(w: Simulation.World, o: Attempt)
    requires o.Forward? && Simulation.Enabled(w, Simulation.Request(o.req, o.at))
    ensures
      var r := Simulation.Step(w, Simulation.Request(o.req, o.at));
      && r.Ok?
      && r.value.ap == Deliver(w.ap, o).ap
      && r.value.accepted == w.accepted + [o.req]
      && |r.value.pending| == |w.pending| + |OptionSeq(Deliver(w.ap, o).spawn)|
      && r.value.now == o.at
  {
  }
}
