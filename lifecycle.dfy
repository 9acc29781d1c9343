/** What `SDLCanvas.Run` does (eff.go:83-174), stated as functions over an
    abstract backend: which calls it makes, in which order, and which status
    it returns. The backend's answers (whether the window and the renderer
    could be created, which events are pending, what the tick counter reads)
    are inputs. `Run` loops until a quit event; here the loop is driven by a
    finite script of frames, and a run whose script ends while the loop is
    still running is reported as `StillRunning`. */
module Lifecycle {
  import opened Conversions
  import opened Backend
  import opened EventDrain
  import opened Pacing

  const WindowTitle: string := "Effulgent"

  /** What the backend hands one frame: the events pending when the frame
      drains the queue, and the value `sdl.GetTicks` returns before the
      frame is presented. */
  datatype FrameInput = FrameInput(events: seq<Event>, ticks: Tick)

  /** The loop's variables: `running`, `fullscreen` and `lastFrameTime`. */
  datatype LoopState = LoopState(flags: Flags, lastFrameTime: Tick)

  /** The status `Run` returns, or the note that it has not returned within
      the frames scripted. */
  datatype RunResult = Returned(status: int) | StillRunning

  /** A stretch of the loop: the state it ends in, the calls it made and the
      number of frames it ran. */
  datatype LoopOutcome = LoopOutcome(state: LoopState, trace: seq<Action>, frames: nat)

  /** The loop state right after the drawables are initialised. */
  function InitialState(start: Tick): LoopState {
    LoopState(Flags(true, false), start)
  }

  /** One `Init` per drawable, in registration order. */
  function InitCalls(ds: seq<Drawable>): (r: seq<Action>)
    ensures |r| == |ds|
    ensures forall i :: 0 <= i < |r| ==> r[i].IsDrawableCall()
    ensures forall i :: 0 <= i < |ds| ==> r[i] == Init(ds[i])
  {
    if ds == [] then [] else InitCalls(ds[..|ds| - 1]) + [Init(ds[|ds| - 1])]
  }

  /** The drawables' share of one frame: `Draw` then `Update` on each
      drawable before the next one is visited. */
  function DrawUpdateCalls(ds: seq<Drawable>): (r: seq<Action>)
    ensures |r| == 2 * |ds|
    ensures forall i :: 0 <= i < |r| ==> r[i].IsDrawableCall()
    ensures forall i :: 0 <= i < |ds| ==> r[2 * i] == Draw(ds[i]) && r[2 * i + 1] == Update(ds[i])
  {
    if ds == [] then []
    else DrawUpdateCalls(ds[..|ds| - 1]) + [Draw(ds[|ds| - 1]), Update(ds[|ds| - 1])]
  }

  /** `n` frames' worth of the same calls. */
  function Repeat(t: seq<Action>, n: nat): (r: seq<Action>)
    ensures |r| == n * |t|
  {
    if n == 0 then [] else t + Repeat(t, n - 1)
  }

  function DelayCalls(d: Option<Tick>): seq<Action> {
    if d.Some? then [Delay(d.value)] else []
  }

  /** One iteration of `for running`: drain the events, clear the frame to
      opaque black, draw and update every drawable, present, and sleep out
      the rest of the frame budget. */
  function RunFrame(ds: seq<Drawable>, st: LoopState, input: FrameInput): (r: (LoopState, seq<Action>)) {
    var drained := Drain(st.flags, input.events);
    (LoopState(drained.0, input.ticks),
     drained.1 + [SetDrawColor(0, 0, 0, 0xFF), Clear] + DrawUpdateCalls(ds) + [Present]
     + DelayCalls(FrameDelay(st.lastFrameTime, input.ticks)))
  }

  /** The loop from state `st` over the scripted frames: it runs frames while
      `running` holds and frames are left. */
  function Loop(ds: seq<Drawable>, st: LoopState, frames: seq<FrameInput>): (o: LoopOutcome)
    ensures o.frames <= |frames|
    ensures o.state.flags.running ==> o.frames == |frames|
    decreases |frames|
  {
    if !st.flags.running || frames == [] then LoopOutcome(st, [], 0)
    else
      var step := RunFrame(ds, st, frames[0]);
      var rest := Loop(ds, step.0, frames[1..]);
      LoopOutcome(rest.state, step.1 + rest.trace, rest.frames + 1)
  }

  /** The whole of `Run`: window creation, renderer creation, one clear,
      the drawables' `Init`, the loop, and the deferred destruction of the
      renderer and then the window once the loop ends. */
  function RunSpec(width: int, height: int, ds: seq<Drawable>, windowOk: bool, rendererOk: bool,
                   start: Tick, frames: seq<FrameInput>): (r: (RunResult, seq<Action>))
    ensures r.0 == Returned(1) <==> !windowOk
    ensures r.0 == Returned(2) <==> windowOk && !rendererOk
    ensures r.0.Returned? ==> r.0.status in {0, 1, 2}
    ensures r.1 != [] && r.1[0] == CreateWindow(WindowTitle, width, height)
  {
    var create := [CreateWindow(WindowTitle, width, height)];
    if !windowOk then (Returned(1), create)
    else if !rendererOk then (Returned(2), create + [CreateRenderer, DestroyWindow])
    else
      var setup := create + [CreateRenderer, Clear] + InitCalls(ds);
      var o := Loop(ds, InitialState(start), frames);
      if o.state.flags.running then (StillRunning, setup + o.trace)
      else (Returned(0), setup + o.trace + [DestroyRenderer, DestroyWindow])
  }

  /** `o` preceded by `n` frames that made the calls `t`. */
  function After(t: seq<Action>, n: nat, o: LoopOutcome): LoopOutcome {
    LoopOutcome(o.state, t + o.trace, n + o.frames)
  }

  /** One more frame of a running loop: the loop from the `i`-th frame on is
      that frame followed by the loop from the frame after it. */
  lemma LoopUnfold(ds: seq<Drawable>, st: LoopState, frames: seq<FrameInput>, i: nat)
    requires st.flags.running && i < |frames|
    ensures var step := RunFrame(ds, st, frames[i]);
            Loop(ds, st, frames[i..]) == After(step.1, 1, Loop(ds, step.0, frames[i + 1..]))
  {
  }

  lemma AfterAfter(t: seq<Action>, n: nat, u: seq<Action>, m: nat, o: LoopOutcome)
    ensures After(t, n, After(u, m, o)) == After(t + u, n + m, o)
  {
  }

  /** The index of the first frame whose events stop the loop, or the number
      of frames when none does. */
  function FirstStop(frames: seq<FrameInput>): (k: nat)
    ensures k <= |frames|
    ensures k < |frames| ==> AnyStop(frames[k].events)
    ensures forall j :: 0 <= j < k ==> !AnyStop(frames[j].events)
  {
    if frames == [] then 0
    else if AnyStop(frames[0].events) then 0
    else 1 + FirstStop(frames[1..])
  }

  /** Every frame, whatever its events, hands each drawable `Draw` then
      `Update` and touches no drawable otherwise, and records the tick it
      read as the new `lastFrameTime`. */
  lemma FrameCalls(ds: seq<Drawable>, st: LoopState, input: FrameInput)
    ensures DrawableCalls(RunFrame(ds, st, input).1) == DrawUpdateCalls(ds)
    ensures RunFrame(ds, st, input).0 == LoopState(Drain(st.flags, input.events).0, input.ticks)
  {
    var head := Drain(st.flags, input.events).1 + [SetDrawColor(0, 0, 0, 0xFF), Clear];
    var du := DrawUpdateCalls(ds);
    var tail := [Present] + DelayCalls(FrameDelay(st.lastFrameTime, input.ticks));
    assert RunFrame(ds, st, input).1 == (head + du) + tail;
    DropBackendSuffix(head + du, tail);
    DropBackendPrefix(head, du);
    DrawableCallsOfDrawableOnly(du);
  }

  /** The order of a frame's calls: right after the drain's `SetFullscreen`
      calls the frame is cleared to opaque black, then come the drawables'
      `Draw`/`Update` round, then `Present`. */
  lemma FrameOrder(ds: seq<Drawable>, st: LoopState, input: FrameInput)
    ensures var n := |Drain(st.flags, input.events).1|;
            var t := RunFrame(ds, st, input).1;
            && |t| > n + 2 + 2 * |ds|
            && t[n] == SetDrawColor(0, 0, 0, 0xFF) && t[n + 1] == Clear
            && t[n + 2..n + 2 + 2 * |ds|] == DrawUpdateCalls(ds)
            && t[n + 2 + 2 * |ds|] == Present
  {
    FrameLayout(Drain(st.flags, input.events).1, DrawUpdateCalls(ds),
                DelayCalls(FrameDelay(st.lastFrameTime, input.ticks)));
  }

  /** Where the parts of a frame's calls sit in the concatenation. */
  lemma FrameLayout(drained: seq<Action>, du: seq<Action>, delay: seq<Action>)
    ensures var t := drained + [SetDrawColor(0, 0, 0, 0xFF), Clear] + du + [Present] + delay;
            var n := |drained|;
            && |t| > n + 2 + |du|
            && t[n] == SetDrawColor(0, 0, 0, 0xFF) && t[n + 1] == Clear
            && t[n + 2..n + 2 + |du|] == du
            && t[n + 2 + |du|] == Present
  {
    var t := drained + [SetDrawColor(0, 0, 0, 0xFF), Clear] + du + [Present] + delay;
    var n := |drained|;
    assert t[n + 2..n + 2 + |du|] == du by {
      forall k | 0 <= k < |du| ensures t[n + 2 + k] == du[k] {
      }
    }
  }

  /** Over the loop, the drawables see exactly one `Draw`/`Update` round
      per frame run. */
  lemma {:induction false} LoopDrawableCalls(ds: seq<Drawable>, st: LoopState, frames: seq<FrameInput>)
    ensures DrawableCalls(Loop(ds, st, frames).trace) == Repeat(DrawUpdateCalls(ds), Loop(ds, st, frames).frames)
    decreases |frames|
  {
    if st.flags.running && frames != [] {
      var step := RunFrame(ds, st, frames[0]);
      FrameCalls(ds, st, frames[0]);
      LoopDrawableCalls(ds, step.0, frames[1..]);
      DrawableCallsAppend(step.1, Loop(ds, step.0, frames[1..]).trace);
    }
  }

  /** A running loop stops exactly when some scripted frame holds a quit
      request or a release of the quit key, and then only after finishing
      that frame: it runs the frames up to and including the first such
      one, or all of them when there is none. */
  lemma {:induction false} LoopStops(ds: seq<Drawable>, st: LoopState, frames: seq<FrameInput>)
    requires st.flags.running
    ensures !Loop(ds, st, frames).state.flags.running <==> FirstStop(frames) < |frames|
    ensures Loop(ds, st, frames).frames == if FirstStop(frames) < |frames| then FirstStop(frames) + 1 else |frames|
    decreases |frames|
  {
    if frames != [] {
      var step := RunFrame(ds, st, frames[0]);
      DrainRunning(st.flags, frames[0].events);
      if step.0.flags.running {
        LoopStops(ds, step.0, frames[1..]);
      }
    }
  }

  /** The calls of a run in which the window and the renderer are created. */
  function SuccessTrace(width: int, height: int, ds: seq<Drawable>, o: LoopOutcome): seq<Action> {
    var calls := [CreateWindow(WindowTitle, width, height), CreateRenderer, Clear] + (InitCalls(ds) + o.trace);
    if o.state.flags.running then calls else calls + [DestroyRenderer, DestroyWindow]
  }

  lemma RunSpecSuccess(width: int, height: int, ds: seq<Drawable>, start: Tick, frames: seq<FrameInput>)
    ensures var o := Loop(ds, InitialState(start), frames);
            RunSpec(width, height, ds, true, true, start, frames)
            == (if o.state.flags.running then StillRunning else Returned(0), SuccessTrace(width, height, ds, o))
  {
    var o := Loop(ds, InitialState(start), frames);
    var create := [CreateWindow(WindowTitle, width, height)];
    var pre := [CreateWindow(WindowTitle, width, height), CreateRenderer, Clear];
    var setup := create + [CreateRenderer, Clear] + InitCalls(ds);
    assert setup + o.trace == pre + (InitCalls(ds) + o.trace);
    if o.state.flags.running {
      assert SuccessTrace(width, height, ds, o) == pre + (InitCalls(ds) + o.trace);
    } else {
      assert SuccessTrace(width, height, ds, o) == pre + (InitCalls(ds) + o.trace) + [DestroyRenderer, DestroyWindow];
    }
  }

  /** When the window and the renderer are created, the drawables receive
      one `Init` each in registration order before anything else, then one
      `Draw`/`Update` round per frame run: the frames up to and including
      the first that delivers a quit, or all scripted frames if none does. */
  lemma RunSucceedsCalls(width: int, height: int, ds: seq<Drawable>, start: Tick, frames: seq<FrameInput>)
    ensures DrawableCalls(RunSpec(width, height, ds, true, true, start, frames).1)
            == InitCalls(ds) + Repeat(DrawUpdateCalls(ds), if FirstStop(frames) < |frames| then FirstStop(frames) + 1 else |frames|)
  {
    var o := Loop(ds, InitialState(start), frames);
    RunSpecSuccess(width, height, ds, start, frames);
    LoopStops(ds, InitialState(start), frames);
    LoopDrawableCalls(ds, InitialState(start), frames);
    SuccessDrawableCalls(width, height, ds, o);
  }

  /** When the window and the renderer are created, `Run` returns 0 exactly
      when a scripted frame delivered a quit, and its last calls then
      destroy the renderer and the window; otherwise it is still running. */
  lemma RunSucceedsStatus(width: int, height: int, ds: seq<Drawable>, start: Tick, frames: seq<FrameInput>)
    ensures var r := RunSpec(width, height, ds, true, true, start, frames);
            && (r.0 == Returned(0) <==> FirstStop(frames) < |frames|)
            && (r.0 == StillRunning <==> FirstStop(frames) == |frames|)
            && (r.0 == Returned(0) ==> r.1[|r.1| - 2..] == [DestroyRenderer, DestroyWindow])
  {
    RunSpecSuccess(width, height, ds, start, frames);
    LoopStops(ds, InitialState(start), frames);
  }

  lemma SuccessDrawableCalls(width: int, height: int, ds: seq<Drawable>, o: LoopOutcome)
    ensures DrawableCalls(SuccessTrace(width, height, ds, o)) == InitCalls(ds) + DrawableCalls(o.trace)
  {
    var pre := [CreateWindow(WindowTitle, width, height), CreateRenderer, Clear];
    var mid := InitCalls(ds) + o.trace;
    var post: seq<Action> := if o.state.flags.running then [] else [DestroyRenderer, DestroyWindow];
    assert SuccessTrace(width, height, ds, o) == (pre + mid) + post;
    DropBackendSuffix(pre + mid, post);
    DropBackendPrefix(pre, mid);
    DrawableCallsAppend(InitCalls(ds), o.trace);
    DrawableCallsOfDrawableOnly(InitCalls(ds));
  }

  /** When the window or the renderer cannot be created, `Run` returns 1 or
      2 at once: no drawable receives any call, no renderer is asked for
      after a window failure, and after a renderer failure the window is
      still destroyed. */
  lemma RunFailsEarly(width: int, height: int, ds: seq<Drawable>, windowOk: bool, rendererOk: bool,
                      start: Tick, frames: seq<FrameInput>)
    requires !windowOk || !rendererOk
    ensures var r := RunSpec(width, height, ds, windowOk, rendererOk, start, frames);
            && r.0 == Returned(if windowOk then 2 else 1)
            && DrawableCalls(r.1) == []
            && (CreateRenderer in r.1 <==> windowOk)
            && (windowOk ==> r.1[|r.1| - 1] == DestroyWindow)
  {
    var r := RunSpec(width, height, ds, windowOk, rendererOk, start, frames);
    DrawableCallsOfBackendOnly(r.1);
  }
}
