/** The access point's serialisation protocol: a `busy` flag and a queue of
    pending requests, changed only by `request_transmission` and by the two
    halves of the `transmit` process (its start and the expiry of its wait).
    Each transition is a pure function from the old state to the new one
    together with what it hands to the scheduler. */
module AccessPointModel {
  import opened Common

  /** The data rate an access point gets when none is configured. */
  const DefaultDataRate: real := 100.0

  datatype AccessPoint = AccessPoint(
    dataRate: real,
    busy: bool,
    queue: seq<Req>,          // waiting requests, oldest first
    transmissionTime: real)   // duration of the transmission last started

  /** A fresh access point: idle, nothing queued. */
  function NewAccessPoint(dataRate: real): AccessPoint {
    AccessPoint(dataRate, false, [], 0.0)
  }

  /** The new access-point state together with the `transmit` process it asks
      the scheduler to spawn, if any. */
  datatype Admission = Admission(ap: AccessPoint, spawn: Option<Req>)

  /** `request_transmission`: queue the request behind the others when busy,
      otherwise spawn a `transmit` for it. It never touches `busy`: that is
      left to the spawned process when it begins. */
  function RequestTransmission(ap: AccessPoint, r: Req): (a: Admission)
    ensures a.ap.busy == ap.busy && a.ap.dataRate == ap.dataRate
    ensures a.ap.transmissionTime == ap.transmissionTime
    ensures a.spawn.Some? <==> !ap.busy
    ensures a.spawn.Some? ==> a.spawn.value == r && a.ap.queue == ap.queue
    ensures a.spawn.None? ==> |a.ap.queue| == |ap.queue| + 1
                              && a.ap.queue[..|ap.queue|] == ap.queue
                              && a.ap.queue[|ap.queue|] == r
    // nothing is lost: the request is either queued or spawned
    ensures multiset(a.ap.queue) + multiset(OptionSeq(a.spawn))
            == multiset(ap.queue) + multiset{r}
  {
    if ap.busy then Admission(ap.(queue := ap.queue + [r]), None)
    else Admission(ap, Some(r))
  }

  /** The state just after `transmit` began, and how long it then waits. */
  datatype Transmission = Transmission(ap: AccessPoint, delay: real)

  /** The first half of `transmit`: mark the access point busy and compute
      `packet_size / data_rate`. A zero rate raises a division error and a
      negative quotient is refused by the scheduler's timeout. */
  function BeginTransmit(ap: AccessPoint, r: Req): (res: Result<Transmission>)
    ensures ap.dataRate == 0.0 <==> res == Err(DivisionByZero)
    ensures res == Err(NegativeDelay) <==> ap.dataRate != 0.0 && r.size * ap.dataRate < 0.0
    ensures ap.dataRate > 0.0 && r.size >= 0.0 ==> res.Ok?
    ensures res.Ok? ==>
      var t := res.value;
      && t.ap.busy
      && t.ap.queue == ap.queue
      && t.ap.dataRate == ap.dataRate
      && t.delay >= 0.0
      && t.ap.transmissionTime == t.delay
      && t.delay * ap.dataRate == r.size
  {
    if ap.dataRate == 0.0 then Err(DivisionByZero)
    else
      var time := r.size / ap.dataRate;
      QuotientSign(r.size, ap.dataRate);
      if time < 0.0 then Err(NegativeDelay)
      else Ok(Transmission(ap.(busy := true, transmissionTime := time), time))
  }

  /** A quotient is negative exactly when the product of its operands is. */
  lemma QuotientSign(x: real, y: real)
    requires y != 0.0
    ensures x / y < 0.0 <==> x * y < 0.0
    ensures (x / y) * y == x
  {
  }

  /** The second half of `transmit`, when its wait expires: clear `busy` and
      the transmission time, then hand the medium to the oldest waiting
      request, if there is one, by spawning its `transmit` at once. */
  function EndTransmit(ap: AccessPoint): (a: Admission)
    ensures !a.ap.busy && a.ap.transmissionTime == 0.0
    ensures a.ap.dataRate == ap.dataRate
    ensures a.spawn.None? <==> ap.queue == []
    // exactly the head leaves, the rest keeps its order
    ensures OptionSeq(a.spawn) + a.ap.queue == ap.queue
  {
    var idle := ap.(busy := false, transmissionTime := 0.0);
    if |ap.queue| > 0 then Admission(idle.(queue := ap.queue[1..]), Some(ap.queue[0]))
    else Admission(idle, None)
  }
}
