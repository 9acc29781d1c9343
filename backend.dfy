/** The rendering backend and the registered drawables as eff.go sees
    them. Every call the canvas makes into SDL, and every lifecycle call it
    makes on a drawable, is recorded as one `Action` in a trace; what the
    backend does with it is outside the model. */
module Backend {
  import opened Conversions

  /** A registered drawable, known only by its identity. */
  datatype Drawable = Drawable(id: nat)

  /** `sdl.Point`: the backend's point with 32-bit coordinates. */
  datatype SdlPoint = SdlPoint(x: Int32, y: Int32)

  /** The events `sdl.PollEvent` can hand the frame loop, as far as the loop
      distinguishes them: a quit request, a key released (by key symbol),
      and everything else. */
  datatype Event = QuitEvent | KeyUpEvent(sym: char) | OtherEvent

  /** One call into the backend or into a drawable. */
  datatype Action =
    | CreateWindow(title: string, width: int, height: int)
    | CreateRenderer
    | DestroyRenderer
    | DestroyWindow
    | SetDrawColor(r: Byte, g: Byte, b: Byte, a: Byte)
    | Clear
    | DrawPoints(points: seq<SdlPoint>)
    | Present
    | SetFullscreen(on: bool)
    | Delay(ms: Uint32)
    | Init(d: Drawable)
    | Draw(d: Drawable)
    | Update(d: Drawable)
  {
    predicate IsDrawableCall() {
      Init? || Draw? || Update?
    }
  }

  /** The calls a trace makes on drawables, in order, with the backend calls
      dropped. */
  function DrawableCalls(t: seq<Action>): (r: seq<Action>)
    ensures |r| <= |t|
    ensures forall i :: 0 <= i < |r| ==> r[i].IsDrawableCall()
  {
    if t == [] then []
    else if t[0].IsDrawableCall() then [t[0]] + DrawableCalls(t[1..])
    else DrawableCalls(t[1..])
  }

  lemma {:induction false} DrawableCallsAppend(a: seq<Action>, b: seq<Action>)
    ensures DrawableCalls(a + b) == DrawableCalls(a) + DrawableCalls(b)
  {
    if a == [] {
      assert a + b == b;
    } else {
      assert (a + b)[1..] == a[1..] + b;
      DrawableCallsAppend(a[1..], b);
    }
  }

  /** A trace of backend calls only contributes no drawable calls. */
  lemma {:induction false} DrawableCallsOfBackendOnly(t: seq<Action>)
    requires forall i :: 0 <= i < |t| ==> !t[i].IsDrawableCall()
    ensures DrawableCalls(t) == []
  {
    if t != [] {
      DrawableCallsOfBackendOnly(t[1..]);
    }
  }

  /** A trace of drawable calls only is kept whole. */
  lemma {:induction false} DrawableCallsOfDrawableOnly(t: seq<Action>)
    requires forall i :: 0 <= i < |t| ==> t[i].IsDrawableCall()
    ensures DrawableCalls(t) == t
  {
    if t != [] {
      DrawableCallsOfDrawableOnly(t[1..]);
    }
  }

  /** Backend calls before or after a trace change nothing in its drawable
      calls. */
  lemma DropBackendPrefix(a: seq<Action>, b: seq<Action>)
    requires forall i :: 0 <= i < |a| ==> !a[i].IsDrawableCall()
    ensures DrawableCalls(a + b) == DrawableCalls(b)
  {
    DrawableCallsAppend(a, b);
    DrawableCallsOfBackendOnly(a);
  }

  lemma DropBackendSuffix(a: seq<Action>, b: seq<Action>)
    requires forall i :: 0 <= i < |b| ==> !b[i].IsDrawableCall()
    ensures DrawableCalls(a + b) == DrawableCalls(a)
  {
    DrawableCallsAppend(a, b);
    DrawableCallsOfBackendOnly(b);
  }

  /** Sequence concatenation regrouped; stated once so that callers with a
      large proof context do not have to rediscover it. */
  lemma AppendAssoc(a: seq<Action>, b: seq<Action>, c: seq<Action>)
    ensures (a + b) + c == a + (b + c)
  {
  }
}
