/**
 * The frame loop of `main`: read a frame, detect, track, update the frame-rate
 * counter, poll the quit key; then the teardown.
 *
 * The camera, the detector, the clock and the key poll are outside the model: each
 * iteration's results arrive as a `Tick`. Drawing, colour conversion, mirroring and
 * display have no effect on the turret and are not modelled.
 */
module Tracker {
  import opened Wrappers
  import opened Gpio
  import opened Steppers
  import opened Aiming
  import opened Turret

  /** `fps_avg_frames`: the rate is recomputed every this many frames. */
  const FpsAvgFrames: nat := 10
  /** The floor on the elapsed time, `1e-9` seconds. */
  const MinElapsed: real := 0.000000001
  /** The largest rate the floor allows, `FpsAvgFrames / MinElapsed`. */
  const MaxFps: real := 10000000000.0
  /** `cv2.waitKey` code of ESC. */
  const EscKey: int := 27

  /** `fps_avg_frames / max(1e-9, elapsed)`: positive and bounded for any elapsed time. */
  function Rate(elapsed: real): (r: real)
    ensures 0.0 < r <= MaxFps
    ensures elapsed >= MinElapsed ==> r * elapsed == FpsAvgFrames as real
    ensures elapsed <= MinElapsed ==> r == MaxFps
  {
    FpsAvgFrames as real / (if MinElapsed > elapsed then MinElapsed else elapsed)
  }

  /** Ten frames in half a second read 20 frames per second; no elapsed time reads the bound. */
  lemma RateExamples()
    ensures Rate(0.5) == 20.0
    ensures Rate(0.0) == MaxFps
  {
  }

  /** The counter's variables `frame_count`, `t0` and `fps`. */
  datatype FpsState = FpsState(frameCount: nat, t0: real, fps: real)

  /** The counter at start-up, `t0` being the clock at that moment. */
  function FpsStart(start: real): FpsState {
    FpsState(0, start, 0.0)
  }

  /**
   * One update: count the frame; on every tenth, the rate over the window from the
   * first clock reading `t1`, and `t0` reset to the second reading `t2`.
   */
  function FpsStep(s: FpsState, t1: real, t2: real): FpsState {
    var n := s.frameCount + 1;
    if n % FpsAvgFrames == 0 then FpsState(n, t2, Rate(t1 - s.t0)) else FpsState(n, s.t0, s.fps)
  }

  class FpsCounter {
    var frameCount: nat
    var t0: real
    var fps: real

    function State(): FpsState
      reads this
    {
      FpsState(frameCount, t0, fps)
    }

    constructor (start: real)
      ensures State() == FpsStart(start)
    {
      frameCount := 0;
      t0 := start;
      fps := 0.0;
    }

    /** The update after each tracked frame; `t1` and `t2` are the two clock readings. */
    method Update(t1: real, t2: real)
      modifies this
      ensures State() == FpsStep(old(State()), t1, t2)
      ensures frameCount == old(frameCount) + 1
      ensures frameCount % FpsAvgFrames == 0 ==> fps == Rate(t1 - old(t0)) && t0 == t2
      ensures frameCount % FpsAvgFrames != 0 ==> fps == old(fps) && t0 == old(t0)
    {
      frameCount := frameCount + 1;
      if frameCount % FpsAvgFrames == 0 {
        fps := Rate(t1 - t0);
        t0 := t2;
      }
    }
  }

  // ---------------------------------------------------------------------------
  // The loop

  datatype Frame = Frame(shape: FrameShape, detections: seq<Detection>)

  /**
   * What one iteration gets from outside: the frame read (`None` when `read()`
   * fails), the two clock readings used if the rate is recomputed, and the key polled.
   */
  datatype Tick = Tick(read: Option<Frame>, t1: real, t2: real, key: int)

  /** The loop's observable steps other than the turret's own writes. */
  datatype LoopEvent =
    | FrameTracked(index: nat)
    | ReadFailed
    | TurretShutdown
    | CameraReleased
    | WindowsDestroyed

  /** The counter after one update for each of the first `n` ticks. */
  function FpsRun(start: real, ticks: seq<Tick>, n: nat): FpsState
    requires n <= |ticks|
  {
    if n == 0 then FpsStart(start)
    else FpsStep(FpsRun(start, ticks, n - 1), ticks[n - 1].t1, ticks[n - 1].t2)
  }

  /**
   * After `n` updates the counter has counted all of them, its rate lies in
   * [0, MaxFps], is 0.0 until the tenth frame and positive from then on, and `t0` is
   * the second clock reading of the last update that recomputed the rate.
   */
  lemma {:induction false} FpsRunFacts(start: real, ticks: seq<Tick>, n: nat)
    requires n <= |ticks|
    ensures FpsRun(start, ticks, n).frameCount == n
    ensures 0.0 <= FpsRun(start, ticks, n).fps <= MaxFps
    ensures n < FpsAvgFrames ==> FpsRun(start, ticks, n) == FpsState(n, start, 0.0)
    ensures n >= FpsAvgFrames ==>
      FpsRun(start, ticks, n).fps > 0.0 &&
      FpsRun(start, ticks, n).t0 == ticks[n / FpsAvgFrames * FpsAvgFrames - 1].t2
  {
    if n > 0 {
      FpsRunFacts(start, ticks, n - 1);
      if n % FpsAvgFrames != 0 && n > FpsAvgFrames {
        assert (n - 1) / FpsAvgFrames == n / FpsAvgFrames;
      }
      if n % FpsAvgFrames == 0 {
        assert n / FpsAvgFrames * FpsAvgFrames == n;
      }
    }
  }

  /** The rates drawn on the first `n` frames: each is the rate after that frame's update. */
  function Shown(start: real, ticks: seq<Tick>, n: nat): (r: seq<real>)
    requires n <= |ticks|
    ensures |r| == n
  {
    if n == 0 then [] else Shown(start, ticks, n - 1) + [FpsRun(start, ticks, n).fps]
  }

  lemma {:induction false} ShownSpec(start: real, ticks: seq<Tick>, n: nat)
    requires n <= |ticks|
    ensures forall k :: 0 <= k < n ==> Shown(start, ticks, n)[k] == FpsRun(start, ticks, k + 1).fps
  {
    if n > 0 {
      ShownSpec(start, ticks, n - 1);
    }
  }

  /** A frame read by the tick, if any, has a positive shape. */
  predicate Shaped(t: Tick) {
    t.read.Some? ==> t.read.value.shape.width > 0 && t.read.value.shape.height > 0
  }

  /** Every frame read has a positive shape. */
  ghost predicate FramesWellShaped(ticks: seq<Tick>) {
    forall k :: 0 <= k < |ticks| ==> Shaped(ticks[k])
  }

  /**
   * How many frames the loop tracks from tick `i` on: it stops before tracking at the
   * first failed read, and right after tracking the first frame on which ESC was polled.
   */
  function TrackedFrom(ticks: seq<Tick>, i: nat): (n: nat)
    requires i <= |ticks|
    ensures i + n <= |ticks|
    decreases |ticks| - i
  {
    if i == |ticks| || ticks[i].read.None? then 0
    else if ticks[i].key == EscKey then 1
    else 1 + TrackedFrom(ticks, i + 1)
  }

  /** How many frames the whole run tracks. */
  function Processed(ticks: seq<Tick>): (n: nat)
    ensures n <= |ticks|
  {
    TrackedFrom(ticks, 0)
  }

  /** Whether the loop ended on ESC rather than on a failed read. */
  predicate StoppedByKey(ticks: seq<Tick>) {
    Processed(ticks) > 0 && ticks[Processed(ticks) - 1].key == EscKey
  }

  /** Tick `k` read a frame and did not see ESC, so the loop went on past it. */
  predicate Continued(ticks: seq<Tick>, k: int) {
    0 <= k < |ticks| && ticks[k].read.Some? && ticks[k].key != EscKey
  }

  /**
   * How the loop can end after `n` frames: it went on past all but the last, the last
   * was read, and either it saw ESC (`byKey`) or the next read fails or the input is
   * exhausted.
   */
  ghost predicate LoopExit(ticks: seq<Tick>, n: nat, byKey: bool) {
    n <= |ticks| &&
    (forall k :: 0 <= k < n - 1 ==> Continued(ticks, k)) &&
    (n > 0 ==> ticks[n - 1].read.Some?) &&
    (byKey <==> n > 0 && ticks[n - 1].key == EscKey) &&
    (!byKey ==> n == |ticks| || ticks[n].read.None?)
  }

  lemma {:induction false} TrackedFromExit(ticks: seq<Tick>, i: nat, n: nat, byKey: bool)
    requires LoopExit(ticks, n, byKey) && i <= n && (byKey ==> i < n)
    ensures TrackedFrom(ticks, i) == n - i
    decreases n - i
  {
    if i + 1 < n {
      assert Continued(ticks, i);
      TrackedFromExit(ticks, i + 1, n, byKey);
    } else if i < n && !byKey {
      TrackedFromExit(ticks, i + 1, n, byKey);
    }
  }

  lemma {:induction false} TrackedFromIsExit(ticks: seq<Tick>, i: nat)
    requires i <= |ticks|
    requires forall k :: 0 <= k < i ==> Continued(ticks, k)
    ensures LoopExit(ticks, i + TrackedFrom(ticks, i), i + TrackedFrom(ticks, i) > 0 &&
      ticks[i + TrackedFrom(ticks, i) - 1].key == EscKey)
    decreases |ticks| - i
  {
    if Continued(ticks, i) {
      TrackedFromIsExit(ticks, i + 1);
    } else if i > 0 {
      assert Continued(ticks, i - 1);
    }
  }

  /**
   * The loop's exit condition and the count of tracked frames determine each other:
   * `Processed` and `StoppedByKey` describe the one way the loop can end.
   */
  lemma ProcessedSpec(ticks: seq<Tick>, n: nat, byKey: bool)
    ensures LoopExit(ticks, n, byKey) <==> n == Processed(ticks) && byKey == StoppedByKey(ticks)
  {
    TrackedFromIsExit(ticks, 0);
    if LoopExit(ticks, n, byKey) {
      TrackedFromExit(ticks, 0, n, byKey);
    }
  }

  /** The GPIO writes of `track` on the frame a tick read, every pin set up. */
  function TickIo(enabled: bool, t: Tick): seq<Event> {
    match t.read
    case None => []
    case Some(f) => if f.shape.width > 0 && f.shape.height > 0 then TrackIo(enabled, f.detections, f.shape) else []
  }

  /** The lines `track` prints on the frame a tick read. */
  function TickPrinted(enabled: bool, t: Tick): seq<Command> {
    match t.read
    case None => []
    case Some(f) => if f.shape.width > 0 && f.shape.height > 0 then TrackPrinted(enabled, f.detections, f.shape) else []
  }

  /** The GPIO writes of tracking the first `n` frames in turn, every pin set up. */
  function RunIo(enabled: bool, ticks: seq<Tick>, n: nat): seq<Event>
    requires n <= |ticks|
  {
    if n == 0 then [] else RunIo(enabled, ticks, n - 1) + TickIo(enabled, ticks[n - 1])
  }

  /** The lines printed while tracking the first `n` frames in turn. */
  function RunPrinted(enabled: bool, ticks: seq<Tick>, n: nat): seq<Command>
    requires n <= |ticks|
  {
    if n == 0 then [] else RunPrinted(enabled, ticks, n - 1) + TickPrinted(enabled, ticks[n - 1])
  }

  /** In mock mode the run writes no pin; in driving mode it prints no line. */
  lemma {:induction false} RunModes(ticks: seq<Tick>, n: nat)
    requires n <= |ticks|
    ensures RunIo(false, ticks, n) == []
    ensures RunPrinted(true, ticks, n) == []
  {
    if n > 0 {
      RunModes(ticks, n - 1);
    }
  }

  /**
   * A frame in which no detection is eligible adds nothing to the run: the turret
   * neither moves nor prints for it.
   */
  lemma IdleFrame(enabled: bool, ticks: seq<Tick>, n: nat)
    requires n < |ticks| && ticks[n].read.Some? && Shaped(ticks[n])
    requires forall j :: 0 <= j < |ticks[n].read.value.detections| ==> !Eligible(ticks[n].read.value.detections[j])
    ensures RunIo(enabled, ticks, n + 1) == RunIo(enabled, ticks, n)
    ensures RunPrinted(enabled, ticks, n + 1) == RunPrinted(enabled, ticks, n)
  {
    var f := ticks[n].read.value;
    NoEligibleNoAction(enabled, f.detections, f.shape);
    assert RunIo(enabled, ticks, n) + [] == RunIo(enabled, ticks, n);
    assert RunPrinted(enabled, ticks, n) + [] == RunPrinted(enabled, ticks, n);
  }

  function TrackedLog(n: nat): (log: seq<LoopEvent>)
    ensures |log| == n && forall k :: 0 <= k < n ==> log[k] == FrameTracked(k)
  {
    if n == 0 then [] else TrackedLog(n - 1) + [FrameTracked(n - 1)]
  }

  /** One call of `track` from the loop, where every pin is still set up so it cannot raise. */
  method TrackReady(turret: PanTilt, t: Tick)
    requires turret.Valid() && turret.Ready()
    requires t.read.Some? && Shaped(t)
    modifies turret`printed, turret.io
    ensures turret.Ready()
    ensures turret.io != null ==> turret.io.outputs == old(turret.io.outputs)
    ensures turret.printed == old(turret.printed) + TickPrinted(turret.enabled, t)
    ensures turret.io != null ==> turret.io.trace == old(turret.io.trace) + TickIo(turret.enabled, t)
  {
    var frame := t.read.value;
    var moved := turret.Track(frame.detections, frame.shape);
    assert moved;
  }

  /**
   * The loop's state after `n` tracked frames, relative to the turret's lines
   * `printed0`, GPIO log `trace0` and set-up channels `outputs0` before the loop.
   */
  ghost predicate LoopState(turret: PanTilt, counter: FpsCounter, start: real, ticks: seq<Tick>, n: nat,
                            shown: seq<real>, printed0: seq<Command>, trace0: seq<Event>, outputs0: set<int>)
    reads turret, turret.io, counter
  {
    n <= |ticks| &&
    counter.State() == FpsRun(start, ticks, n) &&
    shown == Shown(start, ticks, n) &&
    turret.Valid() && turret.Ready() &&
    turret.printed == printed0 + RunPrinted(turret.enabled, ticks, n) &&
    (turret.io != null ==>
      turret.io.outputs == outputs0 && turret.io.trace == trace0 + RunIo(turret.enabled, ticks, n))
  }

  lemma AppendAssoc<T>(a: seq<T>, b: seq<T>, c: seq<T>)
    ensures (a + b) + c == a + (b + c)
  {
  }

  /** One iteration that read a frame: track it, update the counter, draw the rate. */
  method TrackTick(turret: PanTilt, counter: FpsCounter, start: real, ticks: seq<Tick>, n: nat,
                   shown: seq<real>, ghost printed0: seq<Command>, ghost trace0: seq<Event>,
                   ghost outputs0: set<int>)
    returns (shown': seq<real>)
    requires n < |ticks| && ticks[n].read.Some? && Shaped(ticks[n])
    requires LoopState(turret, counter, start, ticks, n, shown, printed0, trace0, outputs0)
    modifies turret`printed, turret.io, counter
    ensures LoopState(turret, counter, start, ticks, n + 1, shown', printed0, trace0, outputs0)
  {
    AppendAssoc(printed0, RunPrinted(turret.enabled, ticks, n), TickPrinted(turret.enabled, ticks[n]));
    AppendAssoc(trace0, RunIo(turret.enabled, ticks, n), TickIo(turret.enabled, ticks[n]));
    TrackReady(turret, ticks[n]);
    counter.Update(ticks[n].t1, ticks[n].t2);
    shown' := shown + [counter.fps];
  }

  /**
   * The `while True` loop of `main`: each iteration reads, tracks, updates the counter
   * and polls the key. It returns how many frames were tracked, whether ESC ended the
   * loop, and the rate drawn on each tracked frame.
   */
  method TrackFrames(turret: PanTilt, counter: FpsCounter, start: real, ticks: seq<Tick>)
    returns (n: nat, byKey: bool, shown: seq<real>)
    requires turret.Valid() && turret.Ready()
    requires FramesWellShaped(ticks)
    requires counter.State() == FpsStart(start)
    modifies turret`printed, turret.io, counter
    ensures LoopExit(ticks, n, byKey)
    ensures LoopState(turret, counter, start, ticks, n, shown, old(turret.printed),
      if turret.io != null then old(turret.io.trace) else [],
      if turret.io != null then old(turret.io.outputs) else {})
  {
    ghost var printed0 := turret.printed;
    ghost var trace0 := if turret.io != null then turret.io.trace else [];
    ghost var outputs0 := if turret.io != null then turret.io.outputs else {};
    n := 0;
    byKey := false;
    shown := [];
    assert printed0 + [] == printed0 && trace0 + [] == trace0;
    while !byKey && n < |ticks| && ticks[n].read.Some?
      invariant n <= |ticks|
      invariant forall k :: 0 <= k < n - 1 ==> Continued(ticks, k)
      invariant n > 0 ==> ticks[n - 1].read.Some?
      invariant byKey <==> n > 0 && ticks[n - 1].key == EscKey
      invariant LoopState(turret, counter, start, ticks, n, shown, printed0, trace0, outputs0)
    {
      shown := TrackTick(turret, counter, start, ticks, n, shown, printed0, trace0, outputs0);
      n := n + 1;
      byKey := ticks[n - 1].key == EscKey;
    }
  }

  /**
   * `main` from the construction of the turret on: the loop, then the teardown, in
   * which the turret is shut down before the camera is released and the windows are
   * closed. `shown` holds the rate drawn on each tracked frame.
   */
  method Run(turret: PanTilt, start: real, ticks: seq<Tick>) returns (log: seq<LoopEvent>, shown: seq<real>)
    requires turret.Valid() && turret.Ready()
    requires FramesWellShaped(ticks)
    modifies turret`printed, turret.io
    ensures log ==
      TrackedLog(Processed(ticks)) + (if StoppedByKey(ticks) then [] else [ReadFailed]) +
      [TurretShutdown, CameraReleased, WindowsDestroyed]
    ensures |shown| == Processed(ticks)
    ensures forall k :: 0 <= k < |shown| ==> shown[k] == FpsRun(start, ticks, k + 1).fps
    ensures turret.printed == old(turret.printed) + RunPrinted(turret.enabled, ticks, Processed(ticks))
    ensures turret.enabled ==>
      turret.io.trace == old(turret.io.trace) + RunIo(true, ticks, Processed(ticks)) +
        [Output(22, High), Output(25, High), Cleanup]
    ensures turret.enabled ==> turret.io.outputs == {}
    ensures !turret.enabled && turret.io != null ==>
      turret.io.trace == old(turret.io.trace) && turret.io.outputs == old(turret.io.outputs)
  {
    var counter := new FpsCounter(start);
    var n, byKey;
    n, byKey, shown := TrackFrames(turret, counter, start, ticks);
    ProcessedSpec(ticks, n, byKey);
    ShownSpec(start, ticks, n);
    log := TrackedLog(n);
    if !byKey {
      log := log + [ReadFailed];
    }
    var released := turret.Shutdown();
    if turret.enabled {
      ShutdownTwice(old(turret.io.outputs));
    } else {
      RunModes(ticks, n);
    }
    log := log + [TurretShutdown, CameraReleased, WindowsDestroyed];
  }

  /**
   * `main` from `PanTilt(enabled=args.use_gpio)` to the end, `start` being the clock
   * when the counter is set up. In driving mode the library sees exactly the two
   * set-up sequences, pan first, then every tracked frame's writes, then the enable
   * lines released and one `cleanup()`; in mock mode it is never touched.
   */
  method Session(requested: bool, gpio: Capability?, start: real, ticks: seq<Tick>)
    returns (turret: PanTilt, log: seq<LoopEvent>, shown: seq<real>)
    requires FramesWellShaped(ticks)
    modifies gpio
    ensures turret.enabled == (requested && gpio != null) && turret.io == gpio
    ensures log ==
      TrackedLog(Processed(ticks)) + (if StoppedByKey(ticks) then [] else [ReadFailed]) +
      [TurretShutdown, CameraReleased, WindowsDestroyed]
    ensures |shown| == Processed(ticks)
    ensures forall k :: 0 <= k < |shown| ==> shown[k] == FpsRun(start, ticks, k + 1).fps
    ensures turret.printed == RunPrinted(turret.enabled, ticks, Processed(ticks))
    ensures turret.enabled ==>
      gpio.trace == old(gpio.trace) + SetupEvents(PanPins) + SetupEvents(TiltPins) +
        RunIo(true, ticks, Processed(ticks)) + [Output(22, High), Output(25, High), Cleanup] &&
      gpio.outputs == {}
    ensures !turret.enabled && gpio != null ==> gpio.trace == old(gpio.trace) && gpio.outputs == old(gpio.outputs)
  {
    turret := new PanTilt(requested, gpio);
    log, shown := Run(turret, start, ticks);
  }
}
