/** `packet_generator`: one station process per iteration, each spawned at the
    current time, with a fixed pause between iterations. Positions and packet
    sizes are random draws and are not modelled here; what is modelled is how
    many stations are spawned and when. */
module Generator {
  import opened Common

  /** The `index`-th station process, spawned at time `at`. */
  datatype Launch = Launch(index: nat, at: real)

  /** The launches of iterations `i`, `i + 1`, ..., `n - 1` of the loop when
      iteration `i` runs at time `t`. */
  function LaunchesFrom(i: nat, n: int, t: real, interval: real): (r: seq<Launch>)
    decreases n - i
    ensures |r| == if i < n then n - i else 0
    ensures forall j :: 0 <= j < |r| ==> r[j].index == i + j
    ensures forall j :: 0 <= j < |r| ==> r[j].at == t + j as real * interval
  {
    if i >= n then []
    else
      var rest := LaunchesFrom(i + 1, n, t + interval, interval);
      assert forall j :: 0 <= j < |rest| ==> rest[j].at == t + (j + 1) as real * interval;
      [Launch(i, t)] + rest
  }

  /** The whole generator started at time 0 with `n` stations. `range(n)` is
      empty for `n <= 0`; a negative pause makes the first wait fail. */
  function PacketGenerator(n: int, interval: real): (r: Result<seq<Launch>>)
    ensures r.Err? <==> n > 0 && interval < 0.0
    ensures r.Err? ==> r.fault == NegativeDelay
    ensures r.Ok? ==> |r.value| == (if n > 0 then n else 0)
    ensures r.Ok? ==> forall i :: 0 <= i < |r.value| ==>
      r.value[i] == Launch(i, i as real * interval)
  {
    if n > 0 && interval < 0.0 then Err(NegativeDelay)
    else Ok(LaunchesFrom(0, n, 0.0, interval))
  }

  /** The generator's loop run step by step: spawn station `i` at the
      current time, then wait one interval. */
  method Generate(n: int, interval: real) returns (r: Result<seq<Launch>>)
    ensures r == PacketGenerator(n, interval)
  {
    var launches: seq<Launch> := [];
    var now := 0.0;
    var i := 0;
    while i < n
      invariant 0 <= i <= (if n > 0 then n else 0)
      invariant i > 0 ==> interval >= 0.0
      invariant |launches| == i
      invariant now == i as real * interval
      invariant forall j :: 0 <= j < i ==> launches[j].index == j && launches[j].at == j as real * interval
    {
      launches := launches + [Launch(i, now)];
      if interval < 0.0 {
        return Err(NegativeDelay);
      }
      now := now + interval;
      i := i + 1;
    }
    ghost var spec := LaunchesFrom(0, n, 0.0, interval);
    assert |launches| == |spec|;
    assert forall j :: 0 <= j < |spec| ==> launches[j] == spec[j];
    assert launches == spec;
    assert !(n > 0 && interval < 0.0);
    return Ok(launches);
  }
}
