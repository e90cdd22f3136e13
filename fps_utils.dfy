/** Frame-rate bookkeeping: three bounded queues of timestamps (rendering,
    video frames, tracking steps), each holding the most recent 50, and the
    average period derived from the oldest retained timestamp.  The clock
    (`DateTime.Now.Ticks`, 100 ns units) is a parameter. */
module Fps {

  const Window: nat := 50

  /** The last `n` elements of `s` (all of them when there are fewer). */
  function LastN<T>(s: seq<T>, n: nat): (r: seq<T>)
    ensures |r| == if |s| <= n then |s| else n
    ensures r == s[|s| - |r|..]
  {
    if |s| <= n then s else s[|s| - n..]
  }

  /** One tick: drop the oldest timestamps while more than 49 are queued,
      then enqueue `now`. */
  method Tick(q: seq<int>, now: int) returns (r: seq<int>)
    ensures r == LastN(q + [now], Window)
  {
    r := q;
    while |r| > Window - 1
      invariant r == q[|q| - |r|..]
      invariant |r| >= Window - 1 || r == q
      decreases |r|
    {
      r := r[1..];
    }
    r := r + [now];
  }

  /** A queue fed only by ticks holds exactly the last 50 timestamps. */
  function TickAll(q: seq<int>, times: seq<int>): seq<int>
    decreases |times|
  {
    if |times| == 0 then q else TickAll(LastN(q + [times[0]], Window), times[1..])
  }

  lemma LastNOfLastN(s: seq<int>, t: int)
    ensures LastN(LastN(s, Window) + [t], Window) == LastN(s + [t], Window)
  {
  }

  lemma {:induction false} TickAllKeepsLastWindow(q: seq<int>, times: seq<int>)
    ensures TickAll(LastN(q, Window), times) == LastN(q + times, Window)
    decreases |times|
  {
    if |times| > 0 {
      LastNOfLastN(q, times[0]);
      TickAllKeepsLastWindow(q + [times[0]], times[1..]);
      assert q + [times[0]] + times[1..] == q + times;
    }
  }

  datatype Period = PositiveInfinity | Milliseconds(ms: real)

  /** The average period over the window: the time since the oldest queued
      tick, divided by 500000 ticks (50 periods of 10000 ticks per ms). */
  function DeltaTime(q: seq<int>, now: int): (p: Period)
    ensures p.PositiveInfinity? <==> |q| == 0
    ensures p.Milliseconds? ==> p.ms * 500000.0 == (now - q[0]) as real
  {
    if |q| == 0 then PositiveInfinity else Milliseconds((now - q[0]) as real / 500000.0)
  }

  /** With timestamps taken from a clock that does not run backwards, the
      reported period is never negative. */
  lemma {:induction false} DeltaTimeNonNegative(q: seq<int>, times: seq<int>, now: int)
    requires forall i, j :: 0 <= i < j < |times| ==> times[i] <= times[j]
    requires forall i :: 0 <= i < |times| ==> times[i] <= now
    ensures DeltaTime(TickAll([], times), now).Milliseconds? ==>
      DeltaTime(TickAll([], times), now).ms >= 0.0
  {
    TickAllKeepsLastWindow([], times);
    assert [] + times == times;
    var w := LastN(times, Window);
    if |w| > 0 {
      assert w[0] == times[|times| - |w|];
    }
  }

  /** The three static queues of `FPSUtils`. */
  class FpsUtils {
    var renderTicks: seq<int>
    var videoTicks: seq<int>
    var trackTicks: seq<int>

    constructor()
      ensures renderTicks == [] && videoTicks == [] && trackTicks == []
    {
      renderTicks := [];
      videoTicks := [];
      trackTicks := [];
    }

    method RenderTick(now: int)
      modifies this
      ensures renderTicks == LastN(old(renderTicks) + [now], Window)
      ensures videoTicks == old(videoTicks) && trackTicks == old(trackTicks)
    {
      renderTicks := Tick(renderTicks, now);
    }

    method VideoTick(now: int)
      modifies this
      ensures videoTicks == LastN(old(videoTicks) + [now], Window)
      ensures renderTicks == old(renderTicks) && trackTicks == old(trackTicks)
    {
      videoTicks := Tick(videoTicks, now);
    }

    method TrackTick(now: int)
      modifies this
      ensures trackTicks == LastN(old(trackTicks) + [now], Window)
      ensures renderTicks == old(renderTicks) && videoTicks == old(videoTicks)
    {
      trackTicks := Tick(trackTicks, now);
    }

    function GetRenderDeltaTime(now: int): Period
      reads this
    {
      DeltaTime(renderTicks, now)
    }

    function GetVideoDeltaTime(now: int): Period
      reads this
    {
      DeltaTime(videoTicks, now)
    }

    function GetTrackDeltaTime(now: int): Period
      reads this
    {
      DeltaTime(trackTicks, now)
    }
  }
}
