/**
 * One iteration of the capture loop of engine.py as a pure state-machine
 * transition, and a bounded run of such iterations.
 *
 * The camera, the wall clock and the display are outside the model: what the
 * capture attempt yields and how long the cycle took before its sleep are
 * inputs (an `Observation`); the frame shown, whether the chain ran, the
 * duration handed to the sleep and the next value of the frame counter are
 * outputs (an `Outcome`). Times are seconds, as `real`.
 */
module Cycle {
  import opened Wrappers
  import Chain

  /** What one capture attempt yields: the device did not open, it opened but gave no frame, or a frame. */
  datatype Capture<F> = Unavailable | Empty | Ok(frame: F)

  /** The inputs of one cycle: the capture and the time measured from the cycle's start to just before its sleep. */
  datatype Observation<F> = Observation(capture: Capture<F>, elapsed: real)

  /** The engine's configuration as one cycle reads it. */
  datatype Config<!F> = Config(customObjects: seq<F -> F>, frameInterval: real, processingDelay: real)

  /** What one cycle does: whether the chain ran, the frame it showed, how long it sleeps, and the next frame counter. */
  datatype Outcome<F> = Outcome(processed: bool, shown: Option<F>, sleep: real, frameCount: nat)

  /** The chain runs on every third successful capture. */
  const SamplingFactor: nat := 3

  /** The resolution every captured frame is resized to. */
  const TargetWidth: nat := 320
  const TargetHeight: nat := 240

  /**
   * How the device's answers become a capture outcome: a device that does not
   * open is unavailable (the read is never attempted), and a read that fails
   * or gives no frame is empty.
   */
  function Acquire<F>(isOpened: bool, success: bool, frame: Option<F>): (c: Capture<F>)
    ensures c.Unavailable? <==> !isOpened
    ensures c.Empty? <==> isOpened && (!success || frame.None?)
    ensures c.Ok? <==> isOpened && success && frame.Some?
    ensures c.Ok? ==> frame == Some(c.frame)
  {
    if !isOpened then Unavailable
    else if !success || frame.None? then Empty
    else Ok(frame.value)
  }

  function Max(a: real, b: real): real
  {
    if a >= b then a else b
  }

  /**
   * The sleep after a successful capture: what is left of the interval, never
   * negative, plus the processing margin. The sleep never falls below the
   * margin, equals the margin exactly when the cycle overran its interval,
   * and, for a non-negative elapsed time, never exceeds the interval plus the
   * margin; the time from the cycle's start to the end of its sleep is the
   * larger of the interval and the elapsed time, plus the margin.
   */
  function SleepAfterCapture(frameInterval: real, elapsed: real, processingDelay: real): (s: real)
    ensures s >= processingDelay
    ensures s == processingDelay <==> elapsed >= frameInterval
    ensures 0.0 <= elapsed ==> s <= Max(frameInterval, 0.0) + processingDelay
    ensures elapsed + s == Max(elapsed, frameInterval) + processingDelay
  {
    var remaining := frameInterval - elapsed;
    (if remaining > 0.0 then remaining else 0.0) + processingDelay
  }

  /** Whether a cycle that reached the sampling check with this counter runs the chain. */
  predicate Sampled(frameCount: nat)
  {
    frameCount % SamplingFactor == 0
  }

  /**
   * One iteration of the loop. A failed capture skips everything and sleeps
   * the bare interval. A successful one is resized, run through the chain
   * twice on sampled cycles, shown, and followed by the computed sleep; the
   * counter advances only on this path.
   */
  function Transition<F>(cfg: Config<F>, resize: F -> F, frameCount: nat, obs: Observation<F>): Outcome<F>
  {
    match obs.capture
    case Unavailable => Outcome(false, None, cfg.frameInterval, frameCount)
    case Empty => Outcome(false, None, cfg.frameInterval, frameCount)
    case Ok(raw) =>
      var small := resize(raw);
      var processed := Sampled(frameCount);
      var frame := if processed then Chain.Apply(cfg.customObjects, Chain.Apply(cfg.customObjects, small)) else small;
      Outcome(processed, Some(frame), SleepAfterCapture(cfg.frameInterval, obs.elapsed, cfg.processingDelay), frameCount + 1)
  }

  /** A bounded run: one transition per observation, the counter threaded through. */
  function Run<F>(cfg: Config<F>, resize: F -> F, frameCount: nat, obs: seq<Observation<F>>): (trace: seq<Outcome<F>>)
    ensures |trace| == |obs|
    decreases |obs|
  {
    if obs == [] then []
    else
      var o := Transition(cfg, resize, frameCount, obs[0]);
      [o] + Run(cfg, resize, o.frameCount, obs[1..])
  }

  /** The number of observations whose capture succeeded. */
  function Successes<F>(obs: seq<Observation<F>>): nat
    decreases |obs|
  {
    if obs == [] then 0
    else (if obs[0].capture.Ok? then 1 else 0) + Successes(obs[1..])
  }

  /** The number of cycles of a trace that ran the chain. */
  function ProcessedCount<F>(trace: seq<Outcome<F>>): nat
    decreases |trace|
  {
    if trace == [] then 0
    else (if trace[0].processed then 1 else 0) + ProcessedCount(trace[1..])
  }

  /** The number of cycles of a trace that showed a frame. */
  function ShownCount<F>(trace: seq<Outcome<F>>): nat
    decreases |trace|
  {
    if trace == [] then 0
    else (if trace[0].shown.Some? then 1 else 0) + ShownCount(trace[1..])
  }

  /** The number of counter values in [lo, hi) that are sampled. */
  function SampledBetween(lo: nat, hi: nat): nat
    decreases hi - lo
  {
    if hi <= lo then 0
    else (if Sampled(lo) then 1 else 0) + SampledBetween(lo + 1, hi)
  }

  // ---------------------------------------------------------------------------
  // One cycle
  // ---------------------------------------------------------------------------

  /**
   * A failed capture (device unavailable or empty frame) shows nothing, runs
   * no processing, leaves the counter alone and sleeps exactly the interval,
   * without the margin.
   */
  lemma SkippedCycle<F>(cfg: Config<F>, resize: F -> F, frameCount: nat, obs: Observation<F>)
    requires !obs.capture.Ok?
    ensures Transition(cfg, resize, frameCount, obs) == Outcome(false, None, cfg.frameInterval, frameCount)
  {
  }

  /**
   * A successful capture always advances the counter by one and always adds
   * the margin to the sleep; the chain runs exactly when the counter, before
   * the increment, is a multiple of three, and then the frame shown is the
   * resized frame passed through the chain twice; otherwise it is the
   * resized frame itself.
   */
  lemma CapturedCycle<F>(cfg: Config<F>, resize: F -> F, frameCount: nat, raw: F, elapsed: real)
    ensures var o := Transition(cfg, resize, frameCount, Observation(Ok(raw), elapsed));
      && (o.processed <==> frameCount % 3 == 0)
      && o.frameCount == frameCount + 1
      && (o.processed ==> o.shown == Some(Chain.Apply(cfg.customObjects, Chain.Apply(cfg.customObjects, resize(raw)))))
      && (!o.processed ==> o.shown == Some(resize(raw)))
      && o.sleep >= cfg.processingDelay
      && (0.0 <= elapsed ==> o.sleep <= Max(cfg.frameInterval, 0.0) + cfg.processingDelay)
      && elapsed + o.sleep == Max(elapsed, cfg.frameInterval) + cfg.processingDelay
  {
  }

  /**
   * One cycle in terms of the device's own answers: whether it opened,
   * whether the read succeeded and whether it gave a frame. If the device did
   * not open, or the read failed or gave no frame, the cycle shows nothing,
   * processes nothing, keeps the counter and sleeps the bare interval;
   * otherwise it shows the read frame, resized (and run through the chain
   * twice on a sampled cycle), and the counter advances by one.
   */
  lemma AcquiredCycle<F>(cfg: Config<F>, resize: F -> F, frameCount: nat,
                         isOpened: bool, success: bool, frame: Option<F>, elapsed: real)
    ensures var o := Transition(cfg, resize, frameCount, Observation(Acquire(isOpened, success, frame), elapsed));
      && (!isOpened || !success || frame.None? ==>
            o == Outcome(false, None, cfg.frameInterval, frameCount))
      && (isOpened && success && frame.Some? ==>
            && (o.processed <==> frameCount % 3 == 0)
            && o.frameCount == frameCount + 1
            && o.shown == Some(if o.processed
                               then Chain.Apply(cfg.customObjects, Chain.Apply(cfg.customObjects, resize(frame.value)))
                               else resize(frame.value)))
  {
    var c := Acquire(isOpened, success, frame);
    if c.Ok? {
      CapturedCycle(cfg, resize, frameCount, c.frame, elapsed);
    } else {
      SkippedCycle(cfg, resize, frameCount, Observation(c, elapsed));
    }
  }

  /** A cycle shows a frame exactly when its capture succeeded, and only then may it process. */
  lemma ShownIffCaptured<F>(cfg: Config<F>, resize: F -> F, frameCount: nat, obs: Observation<F>)
    ensures var o := Transition(cfg, resize, frameCount, obs);
      && (o.shown.Some? <==> obs.capture.Ok?)
      && (o.processed ==> obs.capture.Ok?)
      && o.frameCount == frameCount + (if obs.capture.Ok? then 1 else 0)
  {
  }

  /** The size function `size` sees every resized frame at the target resolution. */
  ghost predicate ResizesToTarget<F(!new)>(resize: F -> F, size: F -> (nat, nat))
  {
    forall f :: size(resize(f)) == (TargetWidth, TargetHeight)
  }

  /** Whether a frame has the target resolution. */
  ghost predicate AtTarget<F>(size: F -> (nat, nat), f: F)
  {
    size(f) == (TargetWidth, TargetHeight)
  }

  /**
   * When resizing yields the target resolution and no stage changes a frame's
   * size, every frame a cycle shows is at the target resolution, whether or
   * not the chain ran.
   */
  lemma ShownAtTarget<F(!new)>(cfg: Config<F>, resize: F -> F, size: F -> (nat, nat), frameCount: nat, obs: Observation<F>)
    requires ResizesToTarget(resize, size)
    requires Chain.AllPreserve(cfg.customObjects, f => AtTarget(size, f))
    ensures var o := Transition(cfg, resize, frameCount, obs);
      o.shown.Some? ==> size(o.shown.value) == (TargetWidth, TargetHeight)
  {
    if obs.capture.Ok? {
      var p := f => AtTarget(size, f);
      var small := resize(obs.capture.frame);
      assert p(small);
      Chain.ApplyPreserves(cfg.customObjects, p, small);
      Chain.ApplyPreserves(cfg.customObjects, p, Chain.Apply(cfg.customObjects, small));
    }
  }

  // ---------------------------------------------------------------------------
  // Bounded runs
  // ---------------------------------------------------------------------------

  /**
   * Cycle `i` of a run is the transition taken with the counter equal to the
   * starting value plus the number of successful captures before it.
   */
  lemma {:induction false} RunAt<F>(cfg: Config<F>, resize: F -> F, frameCount: nat, obs: seq<Observation<F>>, i: nat)
    requires i < |obs|
    ensures Run(cfg, resize, frameCount, obs)[i] == Transition(cfg, resize, frameCount + Successes(obs[..i]), obs[i])
    decreases i
  {
    var o := Transition(cfg, resize, frameCount, obs[0]);
    if i == 0 {
      assert obs[..0] == [];
    } else {
      RunAt(cfg, resize, o.frameCount, obs[1..], i - 1);
      assert obs[..i][0] == obs[0];
      assert obs[..i][1..] == obs[1..][..i - 1];
      assert Successes(obs[..i]) == (if obs[0].capture.Ok? then 1 else 0) + Successes(obs[1..][..i - 1]);
    }
  }

  /**
   * Sampling over a run: cycle `i` runs the chain exactly when its capture
   * succeeded and the successes before it, counted from the starting counter,
   * reach a multiple of three; so from a zero counter the chain runs on the
   * first, fourth, seventh, ... successful capture.
   */
  lemma RunSampling<F>(cfg: Config<F>, resize: F -> F, frameCount: nat, obs: seq<Observation<F>>, i: nat)
    requires i < |obs|
    ensures Run(cfg, resize, frameCount, obs)[i].processed
        <==> obs[i].capture.Ok? && (frameCount + Successes(obs[..i])) % 3 == 0
  {
    RunAt(cfg, resize, frameCount, obs, i);
  }

  /** The counter after a run has advanced by exactly the number of successful captures. */
  lemma {:induction false} RunFinalCount<F>(cfg: Config<F>, resize: F -> F, frameCount: nat, obs: seq<Observation<F>>)
    requires obs != []
    ensures Run(cfg, resize, frameCount, obs)[|obs| - 1].frameCount == frameCount + Successes(obs)
    decreases |obs|
  {
    var o := Transition(cfg, resize, frameCount, obs[0]);
    if |obs| > 1 {
      RunFinalCount(cfg, resize, o.frameCount, obs[1..]);
    }
  }

  /** A run shows one frame per successful capture. */
  lemma {:induction false} RunShownCount<F>(cfg: Config<F>, resize: F -> F, frameCount: nat, obs: seq<Observation<F>>)
    ensures ShownCount(Run(cfg, resize, frameCount, obs)) == Successes(obs)
    decreases |obs|
  {
    if obs != [] {
      var o := Transition(cfg, resize, frameCount, obs[0]);
      var trace := Run(cfg, resize, frameCount, obs);
      assert trace[1..] == Run(cfg, resize, o.frameCount, obs[1..]);
      RunShownCount(cfg, resize, o.frameCount, obs[1..]);
    }
  }

  /** A run processes once for every sampled counter value its successful captures pass through. */
  lemma {:induction false} RunProcessedCount<F>(cfg: Config<F>, resize: F -> F, frameCount: nat, obs: seq<Observation<F>>)
    ensures ProcessedCount(Run(cfg, resize, frameCount, obs)) == SampledBetween(frameCount, frameCount + Successes(obs))
    decreases |obs|
  {
    if obs != [] {
      var o := Transition(cfg, resize, frameCount, obs[0]);
      var trace := Run(cfg, resize, frameCount, obs);
      assert trace[1..] == Run(cfg, resize, o.frameCount, obs[1..]);
      RunProcessedCount(cfg, resize, o.frameCount, obs[1..]);
    }
  }

  /** Between `lo` and `hi` there are `(hi + 2) / 3 - (lo + 2) / 3` multiples of three. */
  lemma {:induction false} SampledBetweenCount(lo: nat, hi: nat)
    requires lo <= hi
    ensures SampledBetween(lo, hi) == (hi + 2) / 3 - (lo + 2) / 3
    decreases hi - lo
  {
    if lo < hi {
      SampledBetweenCount(lo + 1, hi);
      assert (lo + 3) / 3 == (lo + 2) / 3 + (if lo % 3 == 0 then 1 else 0);
    }
  }

  /**
   * Over a run that starts with the counter at zero, as the loop does, the
   * chain runs `(k + 2) / 3` times, where `k` is the number of successful
   * captures; failed captures in between do not change the count.
   */
  lemma RunProcessedFromZero<F>(cfg: Config<F>, resize: F -> F, obs: seq<Observation<F>>)
    ensures ProcessedCount(Run(cfg, resize, 0, obs)) == (Successes(obs) + 2) / 3
  {
    RunProcessedCount(cfg, resize, 0, obs);
    SampledBetweenCount(0, Successes(obs));
  }

  /**
   * A device that never yields a frame: every cycle shows nothing, runs no
   * processing, sleeps exactly the interval and leaves the counter as it was.
   */
  lemma {:induction false} RunWithoutFrames<F>(cfg: Config<F>, resize: F -> F, frameCount: nat, obs: seq<Observation<F>>)
    requires forall i :: 0 <= i < |obs| ==> !obs[i].capture.Ok?
    ensures forall i :: 0 <= i < |obs| ==>
      Run(cfg, resize, frameCount, obs)[i] == Outcome(false, None, cfg.frameInterval, frameCount)
    decreases |obs|
  {
    if obs != [] {
      var trace := Run(cfg, resize, frameCount, obs);
      assert trace[1..] == Run(cfg, resize, frameCount, obs[1..]);
      RunWithoutFrames(cfg, resize, frameCount, obs[1..]);
      forall i | 0 <= i < |obs|
        ensures trace[i] == Outcome(false, None, cfg.frameInterval, frameCount)
      {
        if i > 0 {
          assert trace[i] == trace[1..][i - 1];
          assert obs[1..][i - 1] == obs[i];
        }
      }
    }
  }

  /**
   * When resizing yields the target resolution and no stage changes a
   * frame's size, every frame a run shows is at the target resolution.
   */
  lemma RunShownAtTarget<F(!new)>(cfg: Config<F>, resize: F -> F, size: F -> (nat, nat), frameCount: nat, obs: seq<Observation<F>>)
    requires ResizesToTarget(resize, size)
    requires Chain.AllPreserve(cfg.customObjects, f => AtTarget(size, f))
    ensures forall i :: 0 <= i < |obs| && Run(cfg, resize, frameCount, obs)[i].shown.Some? ==>
      size(Run(cfg, resize, frameCount, obs)[i].shown.value) == (TargetWidth, TargetHeight)
  {
    forall i | 0 <= i < |obs|
      ensures var o := Run(cfg, resize, frameCount, obs)[i];
        o.shown.Some? ==> size(o.shown.value) == (TargetWidth, TargetHeight)
    {
      RunAt(cfg, resize, frameCount, obs, i);
      ShownAtTarget(cfg, resize, size, frameCount + Successes(obs[..i]), obs[i]);
    }
  }
}
