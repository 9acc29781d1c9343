/** The event drain at the top of every frame of `Run` (eff.go:136-153):
    every pending event is polled and folded over the loop's two flags,
    `running` and `fullscreen`. A toggle also tells the window its new mode
    at once, so the drain emits `SetFullscreen` calls. */
module EventDrain {
  import opened Backend

  /** `sdl.K_q` and `sdl.K_f`: the quit key and the fullscreen key. */
  const QuitKey: char := 'q'
  const FullscreenKey: char := 'f'

  datatype Flags = Flags(running: bool, fullscreen: bool)

  /** A quit request or a release of the quit key. */
  predicate StopsLoop(e: Event) {
    e == QuitEvent || e == KeyUpEvent(QuitKey)
  }

  /** A release of the fullscreen key. */
  predicate TogglesFullscreen(e: Event) {
    e == KeyUpEvent(FullscreenKey)
  }

  predicate AnyStop(events: seq<Event>) {
    exists i :: 0 <= i < |events| && StopsLoop(events[i])
  }

  /** How many fullscreen toggles a batch of events holds. */
  function Toggles(events: seq<Event>): nat {
    if events == [] then 0
    else Toggles(events[..|events| - 1]) + (if TogglesFullscreen(events[|events| - 1]) then 1 else 0)
  }

  /** One event's effect on the flags, and the backend calls it makes. */
  function Step(s: Flags, e: Event): (Flags, seq<Action>) {
    match e
    case QuitEvent => (s.(running := false), [])
    case KeyUpEvent(sym) =>
      if sym == QuitKey then (s.(running := false), [])
      else if sym == FullscreenKey then (s.(fullscreen := !s.fullscreen), [SetFullscreen(!s.fullscreen)])
      else (s, [])
    case OtherEvent => (s, [])
  }

  /** The drain as a left fold of `Step` over the polled events. Only
      `SetFullscreen` reaches the backend, and nothing sets `running` back
      to true. */
  function Drain(s: Flags, events: seq<Event>): (r: (Flags, seq<Action>))
    ensures forall i :: 0 <= i < |r.1| ==> r.1[i].SetFullscreen?
    ensures r.0.running ==> s.running
  {
    if events == [] then (s, [])
    else
      var before := Drain(s, events[..|events| - 1]);
      var after := Step(before.0, events[|events| - 1]);
      (after.0, before.1 + after.1)
  }

  /** The drain loop itself: polls `events` in order and updates the two
      flags in place. */
  method DrainEvents(s: Flags, events: seq<Event>) returns (r: Flags, calls: seq<Action>)
    ensures (r, calls) == Drain(s, events)
  {
    var running, fullscreen := s.running, s.fullscreen;
    calls := [];
    var i := 0;
    while i < |events|
      invariant 0 <= i <= |events|
      invariant (Flags(running, fullscreen), calls) == Drain(s, events[..i])
    {
      assert events[..i + 1][..i] == events[..i];
      ghost var step := Step(Flags(running, fullscreen), events[i]);
      ghost var before := calls;
      match events[i] {
        case QuitEvent =>
          running := false;
        case KeyUpEvent(sym) =>
          if sym == QuitKey {
            running := false;
          } else if sym == FullscreenKey {
            fullscreen := !fullscreen;
            if fullscreen {
              calls := calls + [SetFullscreen(true)];
            } else {
              calls := calls + [SetFullscreen(false)];
            }
          }
        case OtherEvent =>
      }
      assert Flags(running, fullscreen) == step.0 && calls == before + step.1;
      i := i + 1;
    }
    assert events[..i] == events;
    r := Flags(running, fullscreen);
  }

  /** After the drain the loop keeps running exactly when it was running and
      no event in the batch was a quit request or a release of the quit
      key. */
  lemma {:induction false} DrainRunning(s: Flags, events: seq<Event>)
    ensures Drain(s, events).0.running <==> s.running && !AnyStop(events)
  {
    if events != [] {
      var n := |events| - 1;
      var init := events[..n];
      DrainRunning(s, init);
      if AnyStop(events) && !AnyStop(init) {
        var i :| 0 <= i < |events| && StopsLoop(events[i]);
        assert i == n;
      }
      if AnyStop(init) {
        var i :| 0 <= i < |init| && StopsLoop(init[i]);
        assert StopsLoop(events[i]);
      }
      if StopsLoop(events[n]) {
        assert AnyStop(events);
      }
    }
  }

  /** The fullscreen flag ends flipped exactly when the batch holds an odd
      number of toggles, and the window is told each new mode in turn, so
      the last call it gets matches the flag. (`DrainRunning` shows that
      toggles never touch `running`.) */
  lemma {:induction false} DrainFullscreen(s: Flags, events: seq<Event>)
    ensures Drain(s, events).0.fullscreen == (s.fullscreen != (Toggles(events) % 2 == 1))
    ensures |Drain(s, events).1| == Toggles(events)
    ensures forall i :: 0 <= i < |Drain(s, events).1| ==>
              Drain(s, events).1[i] == SetFullscreen(s.fullscreen == (i % 2 == 1))
  {
    if events != [] {
      DrainFullscreen(s, events[..|events| - 1]);
    }
  }

  /** Two releases of the fullscreen key in a row undo each other. */
  lemma {:induction false} ToggleTwiceRestores(s: Flags, events: seq<Event>)
    ensures Drain(s, events + [KeyUpEvent(FullscreenKey), KeyUpEvent(FullscreenKey)]).0 == Drain(s, events).0
  {
    var f := KeyUpEvent(FullscreenKey);
    var once := events + [f];
    var twice := once + [f];
    assert twice[..|twice| - 1] == once;
    assert once[..|once| - 1] == events;
    assert events + [f, f] == twice;
  }
}
