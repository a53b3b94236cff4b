/**
 * `api_metrics`: four synthetic 24-hour series around a base value. `random.random()` is
 * replaced by a stream of draws `draws(0), draws(1), ...` consumed in order; timestamps are microseconds.
 */
module Trend {

  const MicrosPerHour := 3_600_000_000
  const Points := 24

  datatype Point = Point(t: int, v: real)

  /** `max(0, min(100, x))`. */
  function Clamp(x: real): (r: real)
    ensures 0.0 <= r <= 100.0
    ensures 0.0 <= x <= 100.0 ==> r == x
    ensures x < 0.0 ==> r == 0.0
    ensures x > 100.0 ==> r == 100.0
  {
    var m := if 100.0 < x then 100.0 else x;
    if 0.0 > m then 0.0 else m
  }

  /** The value of the point drawn with `draw`: the base moved by at most half the jitter, clamped. */
  function Sample(base: real, jitter: real, draw: real): real {
    Clamp(base + (draw - 0.5) * jitter)
  }

  /**
   * `series(points, base, jitter)`: one point per trailing hour, the last at `now`; the draws
   * it consumes are those from position `from` of the stream on.
   */
  method Series(points: int, base: real, jitter: real, now: int, draws: nat -> real, from: nat) returns (out: seq<Point>)
    ensures |out| == if points < 0 then 0 else points
    ensures forall i :: 0 <= i < |out| ==> out[i].t == now - (points - 1 - i) * MicrosPerHour
    ensures forall i :: 0 <= i < |out| ==> out[i].v == Sample(base, jitter, draws(from + i))
    ensures forall i :: 0 <= i < |out| ==> 0.0 <= out[i].v <= 100.0
    ensures forall i :: 0 <= i < |out| - 1 ==> out[i + 1].t == out[i].t + MicrosPerHour
    ensures |out| > 0 ==> out[|out| - 1].t == now
  {
    out := [];
    var i := 0;
    while i < points
      invariant 0 <= i <= if points < 0 then 0 else points
      invariant |out| == i
      invariant forall j :: 0 <= j < i ==> out[j].t == now - (points - 1 - j) * MicrosPerHour
      invariant forall j :: 0 <= j < i ==> out[j].v == Sample(base, jitter, draws(from + j))
    {
      var t := now - (points - 1 - i) * MicrosPerHour;
      var v := Sample(base, jitter, draws(from + i));
      out := out + [Point(t, v)];
      i := i + 1;
    }
  }

  /** Jitter 0 reproduces the base. */
  lemma SampleZeroJitter(base: real, draw: real)
    requires 0.0 <= base <= 100.0
    ensures Sample(base, 0.0, draw) == base
  {
    assert (draw - 0.5) * 0.0 == 0.0;
  }

  /** A base at least half the jitter inside [0, 100] is moved by the offset and never clamped. */
  lemma SampleUnclamped(base: real, jitter: real, draw: real)
    requires 0.0 <= draw <= 1.0 && jitter >= 0.0 && jitter / 2.0 <= base <= 100.0 - jitter / 2.0
    ensures Sample(base, jitter, draw) == base + (draw - 0.5) * jitter
  {
    var d := draw - 0.5;
    var x := d * jitter;
    OffsetBounds(d, jitter);
    assert -jitter / 2.0 <= x <= jitter / 2.0;
    var y := base + x;
    assert 0.0 <= y;
    assert y <= 100.0;
    assert Clamp(y) == y;
  }

  /** An offset of at most half a unit, scaled by the jitter, moves by at most half the jitter. */
  lemma OffsetBounds(d: real, jitter: real)
    requires -0.5 <= d <= 0.5 && jitter >= 0.0
    ensures -jitter / 2.0 <= d * jitter <= jitter / 2.0
  {
    NonNegProduct(0.5 - d, jitter);
    NonNegProduct(d + 0.5, jitter);
    assert (0.5 - d) * jitter == jitter / 2.0 - d * jitter;
    assert (d + 0.5) * jitter == d * jitter + jitter / 2.0;
  }

  lemma NonNegProduct(x: real, y: real)
    requires x >= 0.0 && y >= 0.0
    ensures x * y >= 0.0
  {
  }

  datatype MetricsData = MetricsData(
    timestamp: int, cpu: seq<Point>, memory: seq<Point>, disk: seq<Point>, netio: seq<Point>)

  /** `api_metrics`: cpu (jitter 18), memory (14), disk (base 55, jitter 10), netio (base 35, jitter 22). */
  method CollectMetrics(baseCpu: real, baseMem: real, now: int, draws: nat -> real) returns (m: MetricsData)
    ensures m.timestamp == now
    ensures |m.cpu| == |m.memory| == |m.disk| == |m.netio| == Points
    ensures forall i :: 0 <= i < Points ==>
              && m.cpu[i].v == Sample(baseCpu, 18.0, draws(i))
              && m.memory[i].v == Sample(baseMem, 14.0, draws(Points + i))
              && m.disk[i].v == Sample(55.0, 10.0, draws(2 * Points + i))
              && m.netio[i].v == Sample(35.0, 22.0, draws(3 * Points + i))
    ensures forall i :: 0 <= i < Points ==>
              m.cpu[i].t == m.memory[i].t == m.disk[i].t == m.netio[i].t == now - (Points - 1 - i) * MicrosPerHour
  {
    var cpu := Series(Points, baseCpu, 18.0, now, draws, 0);
    var memory := Series(Points, baseMem, 14.0, now, draws, Points);
    var disk := Series(Points, 55.0, 10.0, now, draws, 2 * Points);
    var netio := Series(Points, 35.0, 22.0, now, draws, 3 * Points);
    m := MetricsData(now, cpu, memory, disk, netio);
  }
}
