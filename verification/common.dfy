/** Vocabulary shared by every part of the access-point model: who asks for the
    medium, what a request carries, and how a simulation run can fail. */
module Common {

  /** A station is known by its identity only; every station object of the
      simulation is created fresh and asks for the medium at most once. */
  type StationId = nat

  /** One `(station, packet_size)` pair, as handed to the access point and kept
      in its queue. Sizes are reals: the source draws them from an exponential
      distribution. */
  datatype Req = Req(station: StationId, size: real)

  /** The ways a run of the simulation aborts: dividing by a zero data rate,
      and asking the scheduler to wait for a negative delay. */
  datatype Fault = DivisionByZero | NegativeDelay

  datatype Result<+T> = Ok(value: T) | Err(fault: Fault)

  datatype Option<+T> = None | Some(value: T)

  /** The contents of an option as a sequence of length zero or one. */
  function OptionSeq<T>(o: Option<T>): (s: seq<T>)
    ensures |s| <= 1
    ensures o.Some? <==> |s| == 1
    ensures o.Some? ==> s[0] == o.value
  {
    match o
    case None => []
    case Some(v) => [v]
  }
}
