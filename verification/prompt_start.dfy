/** Mutual exclusion of the medium. `busy` is set by a spawned `transmit` when
    it begins, not by `request_transmission` when it spawns it, and it is
    cleared by a completion before the process it spawns for the head of the
    queue begins. A request that arrives in either gap sees the access point
    idle and spawns a second transmission. So "at most one transmission in
    flight" is not a property of the access point alone: it holds when every
    spawned `transmit` begins before any other event reaches the access point
    (the prompt-start discipline), and can fail otherwise. */
module PromptStart {
  import opened Common
  import opened AccessPointModel
  import opened Simulation

  /** Event `e` respects the prompt-start discipline in world `w`: while a
      spawned transmission waits to begin, nothing but its start happens. */
  predicate Prompt(w: World, e: Event) {
    w.pending != [] ==> e.Start?
  }

  /** Every event of `es`, delivered from `w` on, respects the discipline. */
  predicate PromptRun(w: World, es: seq<Event>)
    requires Schedulable(w, es)
    decreases |es|
  {
    |es| == 0 ||
    (Prompt(w, es[0]) &&
     match Step(w, es[0])
     case Err(_) => true
     case Ok(w') => PromptRun(w', es[1..]))
  }

  /** At most one transmission is spawned or running, and `busy` says exactly
      whether one is running. */
  predicate Exclusive(w: World) {
    && |w.pending| + |w.inFlight| <= 1
    && (w.ap.busy <==> |w.inFlight| == 1)
  }

  lemma PromptStepKeepsExclusive(w: World, e: Event)
    requires Exclusive(w) && Enabled(w, e) && Prompt(w, e) && Step(w, e).Ok?
    ensures Exclusive(Step(w, e).value)
  {
    match e
    case Request(req, at) =>
      var w' := OnRequest(w, req, at);
      if !w.ap.busy {
        assert |w'.pending| == |w.pending| + 1;
      }
    case Start =>
    case Complete(k) =>
      var w' := OnComplete(w, k);
      assert |w'.inFlight| == |w.inFlight| - 1;
  }

  lemma {:induction false} PromptRunKeepsExclusive(w: World, es: seq<Event>)
    requires Exclusive(w) && Schedulable(w, es) && PromptRun(w, es)
    ensures Run(w, es).Ok? ==> Exclusive(Run(w, es).value)
    decreases |es|
  {
    if |es| > 0 {
      var r := Step(w, es[0]);
      if r.Ok? {
        PromptStepKeepsExclusive(w, es[0]);
        PromptRunKeepsExclusive(r.value, es[1..]);
      }
    }
  }

  /** Under the prompt-start discipline the medium is never shared: at most
      one transmission is in flight, and `busy` is set exactly while one is. */
  lemma AtMostOneInFlight(dataRate: real, es: seq<Event>)
    requires Schedulable(Initial(dataRate), es) && PromptRun(Initial(dataRate), es)
    ensures Run(Initial(dataRate), es).Ok? ==>
      var w := Run(Initial(dataRate), es).value;
      |w.inFlight| <= 1 && (w.ap.busy <==> |w.inFlight| == 1)
  {
    PromptRunKeepsExclusive(Initial(dataRate), es);
  }

  /** Two stations reach the idle access point at the same instant, and the
      second arrives before the `transmit` spawned for the first has begun. */
  function OverlapTrace(): seq<Event> {
    [Request(Req(0, 100.0), 1.0), Request(Req(1, 100.0), 1.0), Start, Start]
  }

  /** The world the overlap trace leads to, computed event by event. */
  function OverlapWorld(): World {
    var w1 := OnRequest(Initial(DefaultDataRate), Req(0, 100.0), 1.0);
    var w2 := OnRequest(w1, Req(1, 100.0), 1.0);
    assert |w2.pending| == 2;
    var w3 := OnStart(w2);
    assert w3.Ok? && |w3.value.pending| == 1;
    var w4 := OnStart(w3.value);
    assert w4.Ok?;
    w4.value
  }

  lemma OverlapRun()
    ensures Schedulable(Initial(DefaultDataRate), OverlapTrace())
    ensures !PromptRun(Initial(DefaultDataRate), OverlapTrace())
    ensures Run(Initial(DefaultDataRate), OverlapTrace()) == Ok(OverlapWorld())
  {
    var w1 := OnRequest(Initial(DefaultDataRate), Req(0, 100.0), 1.0);
    var w2 := OnRequest(w1, Req(1, 100.0), 1.0);
    var w3 := OnStart(w2).value;
    var w4 := OnStart(w3).value;
    var es := OverlapTrace();
    assert es[1..] == [Request(Req(1, 100.0), 1.0), Start, Start];
    assert es[2..] == [Start, Start];
    assert es[3..] == [Start];
    assert Run(w3, es[3..]) == Ok(w4);
    assert Run(w2, es[2..]) == Ok(w4);
    assert Run(w1, es[1..]) == Ok(w4);
    assert !Prompt(w1, es[1]);
  }

  /** Without the discipline two transmissions overlap: on the trace above
      both requests see the access point idle, both get a `transmit`, and
      both begin. */
  lemma OverlapWithoutPrompt()
    ensures Schedulable(Initial(DefaultDataRate), OverlapTrace())
    ensures !PromptRun(Initial(DefaultDataRate), OverlapTrace())
    ensures Run(Initial(DefaultDataRate), OverlapTrace()).Ok?
    ensures |Run(Initial(DefaultDataRate), OverlapTrace()).value.inFlight| == 2
  {
    OverlapRun();
  }

  /** Continuing the overlap: when the first transmission ends, `busy` is
      cleared although the second is still on the air, so a further request
      would be spawned rather than queued. */
  lemma BusyClearedWhileOnAir()
    ensures Schedulable(Initial(DefaultDataRate), OverlapTrace())
    ensures
      var r := Run(Initial(DefaultDataRate), OverlapTrace());
      && r.Ok?
      && Enabled(r.value, Complete(0))
      && |Step(r.value, Complete(0)).value.inFlight| == 1
      && !Step(r.value, Complete(0)).value.ap.busy
  {
    OverlapRun();
    var w := OverlapWorld();
    assert w.pending == [];
    assert w.inFlight[0].deadline == 2.0 && w.inFlight[1].deadline == 2.0;
  }
}
