/** `SDLCanvas` (eff.go:48-194): the canvas that owns the window size and
    the ordered list of drawables, runs the frame loop and turns point
    batches into backend draw calls. The backend is the call trace of
    module `Backend`; `Run` takes the backend's answers as parameters and
    returns the calls it made. */
module Eff {
  import opened Conversions
  import opened Backend
  import opened EventDrain
  import opened Pacing
  import opened Lifecycle

  /** `eff.Point`: a point in Go `int` coordinates. */
  datatype Point = Point(x: int, y: int)

  /** `eff.Color`: four Go `int` channels; nothing checks their range. */
  datatype Color = Color(r: int, g: int, b: int, a: int)

  /** The backend call `DrawPoints` makes for one point. */
  function ToSdlPoint(p: Point): SdlPoint {
    SdlPoint(ToInt32(p.x), ToInt32(p.y))
  }

  class Canvas {
    var width: int
    var height: int
    var drawables: seq<Drawable>

    /** A zero `SDLCanvas`: no size set and no drawable registered. */
    constructor ()
      ensures width == 0 && height == 0 && drawables == []
    {
      width, height, drawables := 0, 0, [];
    }

    function GetWidth(): int
      reads this
    {
      width
    }

    function GetHeight(): int
      reads this
    {
      height
    }

    /** Sets the width the window will be created with. */
    method SetWidth(w: int)
      modifies this
      ensures GetWidth() == w
      ensures GetHeight() == old(GetHeight()) && drawables == old(drawables)
    {
      width := w;
    }

    /** Sets the height the window will be created with. */
    method SetHeight(h: int)
      modifies this
      ensures GetHeight() == h
      ensures GetWidth() == old(GetWidth()) && drawables == old(drawables)
    {
      height := h;
    }

    /** Registers a drawable after those already registered. */
    method AddDrawable(d: Drawable)
      modifies this
      ensures drawables == old(drawables) + [d]
      ensures |drawables| == |old(drawables)| + 1 && drawables[|drawables| - 1] == d
      ensures drawables[..|old(drawables)|] == old(drawables)
      ensures GetWidth() == old(GetWidth()) && GetHeight() == old(GetHeight())
    {
      drawables := drawables + [d];
    }

    /** The frame loop. `windowOk` and `rendererOk` are the backend's answers
        to the creation requests, `start` is the tick count read before the
        loop and `frames` gives, per frame, the pending events and the tick
        count read before presenting. */
    method Run(windowOk: bool, rendererOk: bool, start: Tick, frames: seq<FrameInput>)
      returns (result: RunResult, trace: seq<Action>)
      ensures (result, trace) == RunSpec(width, height, drawables, windowOk, rendererOk, start, frames)
    {
      trace := [CreateWindow(WindowTitle, GetWidth(), GetHeight())];
      if !windowOk {
        return Returned(1), trace;
      }
      trace := trace + [CreateRenderer];
      if !rendererOk {
        trace := trace + [DestroyWindow];
        assert trace == [CreateWindow(WindowTitle, width, height)] + [CreateRenderer, DestroyWindow];
        return Returned(2), trace;
      }
      trace := trace + [Clear];

      ghost var pre := trace;
      assert pre == [CreateWindow(WindowTitle, width, height), CreateRenderer, Clear];
      for k := 0 to |drawables|
        invariant trace == pre + InitCalls(drawables[..k])
      {
        assert drawables[..k + 1][..k] == drawables[..k];
        trace := trace + [Init(drawables[k])];
      }
      assert drawables[..|drawables|] == drawables;
      ghost var inits := InitCalls(drawables);
      assert trace == pre + inits;

      var o := RunLoop(start, frames);
      AppendAssoc(pre, inits, o.trace);
      trace := trace + o.trace;
      RunSpecSuccess(width, height, drawables, start, frames);
      if o.state.flags.running {
        assert trace == SuccessTrace(width, height, drawables, o);
        return StillRunning, trace;
      }
      trace := trace + [DestroyRenderer, DestroyWindow];
      assert trace == SuccessTrace(width, height, drawables, o);
      result := Returned(0);
    }

    /** The `for running` loop of `Run`, from the state it starts in: one
        iteration per scripted frame until a frame's events stop it. */
    method RunLoop(start: Tick, frames: seq<FrameInput>) returns (o: LoopOutcome)
      ensures o == Loop(drawables, InitialState(start), frames)
    {
      var st := InitialState(start);
      var calls: seq<Action> := [];
      var i := 0;
      while st.flags.running && i < |frames|
        invariant 0 <= i <= |frames|
        invariant Loop(drawables, InitialState(start), frames) == After(calls, i, Loop(drawables, st, frames[i..]))
      {
        LoopUnfold(drawables, st, frames, i);
        var next, frameCalls := RunOneFrame(st, frames[i]);
        AfterAfter(calls, i, frameCalls, 1, Loop(drawables, next, frames[i + 1..]));
        st, calls, i := next, calls + frameCalls, i + 1;
      }
      assert frames[i..] == [] || !st.flags.running;
      assert calls + [] == calls;
      o := LoopOutcome(st, calls, i);
    }

    /** One iteration of the frame loop from loop state `st`: drains the
        pending events, clears the frame, hands each drawable `Draw` then
        `Update`, presents and sleeps out the frame budget. */
    method RunOneFrame(st: LoopState, input: FrameInput) returns (next: LoopState, calls: seq<Action>)
      ensures (next, calls) == RunFrame(drawables, st, input)
    {
      var flags, fullscreenCalls := DrainEvents(st.flags, input.events);
      calls := fullscreenCalls + [SetDrawColor(0, 0, 0, 0xFF), Clear];

      ghost var cleared := calls;
      for j := 0 to |drawables|
        invariant calls == cleared + DrawUpdateCalls(drawables[..j])
      {
        assert drawables[..j + 1][..j] == drawables[..j];
        calls := calls + [Draw(drawables[j]), Update(drawables[j])];
      }
      assert drawables[..|drawables|] == drawables;

      var currentFrameTime := input.ticks;
      calls := calls + [Present];
      var elapsed := SubUint32(currentFrameTime, st.lastFrameTime);
      ghost var presented := calls;
      if elapsed < FrameTime {
        calls := calls + [Delay(FrameTime - elapsed)];
      }
      assert calls == presented + DelayCalls(FrameDelay(st.lastFrameTime, input.ticks));
      next := LoopState(flags, currentFrameTime);
    }

    /** Sets the draw colour to the four channels cut to bytes, then draws
        every point, its coordinates cut to 32 bits, in one batch. The
        calls are returned in the order they are submitted. */
    method DrawPoints(points: seq<Point>, color: Color) returns (calls: seq<Action>)
      ensures |calls| == 2
      ensures calls[0] == SetDrawColor(ToUint8(color.r), ToUint8(color.g), ToUint8(color.b), ToUint8(color.a))
      ensures calls[1].DrawPoints? && |calls[1].points| == |points|
      ensures forall i :: 0 <= i < |points| ==> calls[1].points[i] == ToSdlPoint(points[i])
    {
      var setColor := SetDrawColor(ToUint8(color.r), ToUint8(color.g), ToUint8(color.b), ToUint8(color.a));
      var sdlPoints := new SdlPoint[|points|];
      for i := 0 to |points|
        invariant forall k :: 0 <= k < i ==> sdlPoints[k] == ToSdlPoint(points[k])
      {
        sdlPoints[i] := SdlPoint(ToInt32(points[i].x), ToInt32(points[i].y));
      }
      calls := [setColor, Action.DrawPoints(sdlPoints[..])];
    }
  }
}
