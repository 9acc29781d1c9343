/** Frame pacing at the end of every frame of `Run` (eff.go:164-171): the
    tick counter is read, and if less than one frame budget has passed since
    the previous frame the loop sleeps for the rest of the budget. */
module Pacing {
  import opened Conversions

  datatype Option<T> = None | Some(value: T)

  const FrameRate: int := 90

  /** The frame budget in milliseconds, `1000 / frameRate` in Go's integer
      division (both operands are positive, so Dafny's `/` agrees). */
  const FrameTime: int := 1000 / FrameRate

  /** `sdl.GetTicks()`: milliseconds as a `uint32`. */
  type Tick = Uint32

  /** `currentFrameTime - lastFrameTime`, a `uint32` subtraction: the number
      of milliseconds that takes the counter from `last` to `current`,
      across a wrap of the counter if need be. */
  function Elapsed(last: Tick, current: Tick): (e: Tick)
    ensures (last + e) % TwoTo32 == current
    ensures last <= current ==> e == current - last
  {
    SubUint32(current, last)
  }

  /** The argument of `sdl.Delay`, or `None` when the frame already took at
      least the budget and no delay is requested. A delay always fills the
      frame up to exactly one budget, so it is positive and at most the
      budget (11 ms). */
  function FrameDelay(last: Tick, current: Tick): (d: Option<Tick>)
    ensures d.Some? <==> Elapsed(last, current) < FrameTime
    ensures d.Some? ==> Elapsed(last, current) + d.value == FrameTime
    ensures d.Some? ==> 0 < d.value <= 11
  {
    var elapsed := Elapsed(last, current);
    if elapsed < FrameTime then Some(FrameTime - elapsed) else None
  }
}
