# eff: the frame loop of `SDLCanvas`, in Dafny

`eff` is a small Go wrapper around SDL. It opens a window and runs a render
loop at a fixed frame rate (90 frames per second, an 11 ms frame budget).
It calls `Init` once on every registered drawable, then calls `Draw` and
`Update` on each drawable every frame. It also offers one drawing
primitive, `DrawPoints`. This project models the logic of `SDLCanvas` in
`eff.go` and proves what the loop promises.

SDL itself is not modelled. Every call the canvas makes into SDL, and every
lifecycle call it makes on a drawable, is recorded as one entry of a call
trace (`Backend.Action`). SDL's answers are inputs to the model:

- whether the window and the renderer could be created;
- which events are pending at each frame;
- what the tick counter reads.

The modules follow the parts of `eff.go`:

- `Conversions` (conversions.dfy): Go's `uint8(...)`, `int32(...)` and
  `uint32` subtraction, with their truncation written out.
- `Backend` (backend.dfy): drawables as identities, SDL points, events, the
  call trace, and the projection of a trace onto its drawable calls.
- `EventDrain` (events.dfy): the per-frame event drain. It is a fold over
  the pair of flags (`running`, `fullscreen`), with a spec function (`Drain`)
  and the loop that implements it (`DrainEvents`).
- `Pacing` (pacing.dfy): `frameRate`, `frameTime` and the delay arithmetic.
- `Lifecycle` (lifecycle.dfy): `Run` as functions over the trace. It covers
  one frame (`RunFrame`), the loop (`Loop`) and the whole call (`RunSpec`),
  with lemmas about status codes, call order and termination.
- `Eff` (canvas.dfy): the class `Canvas`. It holds the fields `width`,
  `height` and `drawables`, their setters, `AddDrawable`, `Run` (imperative
  loops proved against `RunSpec`) and `DrawPoints` (fills an array in
  place).

`Run` loops `for running` with no bound. Here it is driven by a finite
script of frames. When the script ends while the loop is still running, the
result is `StillRunning` rather than a status code.

`DrawPoints` with no points is not a no-op. It still sets the draw colour
and submits an empty point batch (eff.go:178-192), and `Canvas.DrawPoints`
always returns exactly these two calls.

## Model

| member | source | states |
|---|---|---|
| `Conversions.ToUint8` | eff.go:179-184 | a colour channel becomes the byte congruent to it modulo 256; values already in 0..255 are kept |
| `Conversions.ToUint8Unique` | eff.go:179-184 | any byte congruent to the channel modulo 256 is its `uint8` conversion, so the conversion is exactly "keep the low 8 bits" |
| `Conversions.ToInt32` | eff.go:189 | a coordinate becomes the signed 32-bit value congruent to it modulo 2^32; values already in `int32` range are kept |
| `Conversions.ToInt32Unique` | eff.go:189 | any `int32` value congruent to the coordinate modulo 2^32 is its `int32` conversion |
| `Conversions.SubUint32` | eff.go:167 | `uint32` subtraction: adding the result back to the subtrahend gives the minuend modulo 2^32; without wrap it is plain subtraction |
| `Pacing.Elapsed` | eff.go:165-167 | the milliseconds between two tick readings, across a wrap of the tick counter |
| `Pacing.FrameDelay` | eff.go:165-170 | a delay is requested exactly when less than `frameTime` (1000/90 = 11 ms) has elapsed; it then brings the frame to exactly one budget and lies in 1..11 |
| `EventDrain.Drain` | eff.go:136-153 | the event fold sends only `SetFullscreen` calls to the backend and never sets `running` back to true |
| `EventDrain.DrainEvents` | eff.go:136-153 | the polling loop leaves the flags and calls that `Drain` gives for the events in order |
| `EventDrain.DrainRunning` | eff.go:137-143 | after the drain, `running` holds exactly when it held before and no event was a quit request or a key-up of `q` |
| `EventDrain.DrainFullscreen` | eff.go:140-151 | `fullscreen` ends flipped exactly when there was an odd number of key-ups of `f`; the window gets one `SetFullscreen` per toggle, alternating, the last one matching the flag |
| `EventDrain.ToggleTwiceRestores` | eff.go:144-150 | two further key-ups of `f` leave both flags as they were |
| `Lifecycle.InitCalls` | eff.go:127-129 | one `Init` per drawable, at the drawable's registration index |
| `Lifecycle.DrawUpdateCalls` | eff.go:159-162 | a frame's drawable calls: `Draw` of drawable i at position 2i and its `Update` at 2i+1 |
| `Lifecycle.Loop` | eff.go:134-172 | the loop runs at most the scripted frames, and while still running it has run all of them |
| `Lifecycle.RunSpec` | eff.go:83-174 | status 1 exactly when the window fails, 2 exactly when the renderer then fails, otherwise 0 or still running; the first call is always the window request with the configured width and height |
| `Lifecycle.FrameCalls` | eff.go:134-171 | whatever its events, a frame gives every drawable `Draw` then `Update` and no other drawable call, and records its tick as `lastFrameTime` |
| `Lifecycle.FrameOrder` | eff.go:155-166 | right after the drain's `SetFullscreen` calls a frame sets the colour to opaque black and clears, then comes the `Draw`/`Update` round, then `Present` |
| `Lifecycle.LoopDrawableCalls` | eff.go:159-162 | over the loop, the drawables see exactly one `Draw`/`Update` round per frame run |
| `Lifecycle.LoopStops` | eff.go:131-143 | a running loop stops exactly when a scripted frame has a quit request or a key-up of `q`, after finishing that frame; it runs the frames up to and including the first such frame, or all of them |
| `Lifecycle.RunSucceedsCalls` | eff.go:122-172 | with window and renderer created, the drawable calls are all `Init`s in registration order, then one `Draw`/`Update` round per frame run, up to and including the first frame with a quit |
| `Lifecycle.RunSucceedsStatus` | eff.go:116-173 | with window and renderer created, `Run` returns 0 exactly when a frame delivered a quit, and the renderer and then the window are destroyed last; otherwise it is still running |
| `Lifecycle.RunFailsEarly` | eff.go:85-115 | on a window failure `Run` returns 1 and asks for no renderer; on a renderer failure it returns 2 and destroys the window; in both cases no drawable receives any call |
| `Eff.Canvas.constructor` | eff.go:49-55 | a zero canvas: width and height 0, no drawables |
| `Eff.Canvas.SetWidth` | eff.go:57-65 | `GetWidth` then returns the value set; height and drawables are unchanged |
| `Eff.Canvas.SetHeight` | eff.go:67-75 | `GetHeight` then returns the value set; width and drawables are unchanged |
| `Eff.Canvas.AddDrawable` | eff.go:77-80 | the list grows by one, the new drawable last, earlier entries and their order kept; width and height unchanged |
| `Eff.Canvas.Run` | eff.go:83-174 | the status and the calls are those of `RunSpec` for the canvas's size and drawables |
| `Eff.Canvas.RunLoop` | eff.go:131-172 | the `for running` loop ends in the state, with the calls and after the number of frames that `Loop` gives |
| `Eff.Canvas.RunOneFrame` | eff.go:135-171 | one loop iteration makes the calls and reaches the state that `RunFrame` gives |
| `Eff.Canvas.DrawPoints` | eff.go:177-193 | exactly two calls: the draw colour with each channel cut to 8 bits, then one batch as long as the input whose i-th point is point i with coordinates cut to 32 bits |

## Left out

- SDL: window and renderer creation and destruction, `Clear`, `Present`, `SetFullscreen`, `PollEvent`, `GetTicks` and `Delay` are foreign calls. They appear only as trace entries or as inputs. The `window` and `renderer` handle fields of `SDLCanvas` are represented by those entries.
- The creation arguments other than title, width and height (window position, `WINDOW_OPENGL`, renderer index -1 and its flags) are constants passed to SDL and are not recorded.
- `sdl.CallQueue` and thread affinity: every submitted closure is taken to run synchronously, in submission order. In Go, `sdl.CallQueue <- func(){…}` returns once the closure is handed over, not once it has run, so `Run` reads `err` (eff.go:95, eff.go:112) and `running` (eff.go:134) without waiting for the closures that set them. The status codes (`RunSpec`, `RunFailsEarly`, `RunSucceedsStatus`) and the result that the loop stops after the quit frame (`LoopStops`) describe this synchronous reading; the Go code does not enforce it.
- `defer`: the deferred destruction is recorded as `DestroyRenderer` then `DestroyWindow` at the point where `Run` returns.
- Printing the creation errors to stderr is I/O and is not modelled.
- Wall-clock time: tick readings are inputs, and `GetTicks` calls are not logged. The loop is bounded by a finite frame script, and what happens after the script ends is not modelled.
- Drawables are opaque identities. Their own behaviour is not modelled, including calls back into the canvas from `Init`/`Draw`/`Update` (`DrawPoints`, the setters, `AddDrawable`). `Canvas.DrawPoints` returns the calls it submits instead of interleaving them into `Run`'s trace.
- Go's `int` is 32 or 64 bits wide, depending on the platform. Width, height, point coordinates and colour channels are unbounded integers here. The conversions are exact for every integer, so this changes nothing for values a Go `int` can hold.
- `GetWidth` and `GetHeight` return the field. They are stated through the `SetWidth`/`SetHeight` rows rather than on their own.
