/**
 * The `Engine` class of engine.py: its configuration, the processing chain as
 * the loop the class runs, one iteration of the capture loop, and a bounded
 * run of that loop.
 *
 * The configuration fields are `const`: they are set by the constructor and no
 * method can change them. The frame counter is a local of the capture loop, as
 * in the class itself; `Step` takes its current value and returns its next one.
 * `resize` stands for the library call that scales a captured frame to
 * 320 by 240.
 */
module Engine {
  import opened Wrappers
  import Chain
  import Cycle

  class Engine<F> {
    const webcamId: int
    const customObjects: seq<F -> F>
    const frameInterval: real
    const processingDelay: real

    /** Stores the configuration as given; the processing margin is fixed at 1.5 seconds. */
    constructor (webcamId: int := 0, customObjects: seq<F -> F> := [], frameInterval: real := 5.0)
      ensures this.webcamId == webcamId
      ensures this.customObjects == customObjects
      ensures this.frameInterval == frameInterval
      ensures this.processingDelay == 1.5
    {
      this.webcamId := webcamId;
      this.customObjects := customObjects;
      this.frameInterval := frameInterval;
      this.processingDelay := 1.5;
    }

    /** The configuration one cycle reads. */
    function Config(): Cycle.Config<F>
    {
      Cycle.Config(customObjects, frameInterval, processingDelay)
    }

    /** Applies the configured stages to `frame` in list order, each to the previous one's output. */
    method CustomProcessing(frame: F) returns (result: F)
      ensures result == Chain.Apply(customObjects, frame)
    {
      result := frame;
      for i := 0 to |customObjects|
        invariant result == Chain.Apply(customObjects[..i], frame)
      {
        assert customObjects[..i + 1] == customObjects[..i] + [customObjects[i]];
        Chain.ApplySnoc(customObjects[..i], customObjects[i], frame);
        result := customObjects[i](result);
      }
      assert customObjects[..|customObjects|] == customObjects;
    }

    /**
     * One iteration of the capture loop, with `frameCount` the counter on
     * entry. A failed capture shows nothing, processes nothing, keeps the
     * counter and sleeps the bare interval. A successful one always advances
     * the counter by one and sleeps at least the margin; it processes exactly
     * when the incoming counter is a multiple of three.
     */
    method Step(frameCount: nat, resize: F -> F, obs: Cycle.Observation<F>) returns (outcome: Cycle.Outcome<F>)
      ensures outcome == Cycle.Transition(Config(), resize, frameCount, obs)
      ensures !obs.capture.Ok? ==>
        && outcome.shown == None
        && !outcome.processed
        && outcome.frameCount == frameCount
        && outcome.sleep == frameInterval
      ensures obs.capture.Ok? ==>
        && outcome.shown.Some?
        && (outcome.processed <==> frameCount % 3 == 0)
        && outcome.frameCount == frameCount + 1
        && outcome.sleep >= processingDelay
    {
      match obs.capture
      case Unavailable =>
        outcome := Cycle.Outcome(false, None, frameInterval, frameCount);
      case Empty =>
        outcome := Cycle.Outcome(false, None, frameInterval, frameCount);
      case Ok(raw) =>
        var frame := resize(raw);
        var processed := false;
        if frameCount % Cycle.SamplingFactor == 0 {
          frame := CustomProcessing(frame);
          frame := CustomProcessing(frame);
          processed := true;
        }
        var nextCount := frameCount + 1;
        var sleepTime := Cycle.SleepAfterCapture(frameInterval, obs.elapsed, processingDelay);
        outcome := Cycle.Outcome(processed, Some(frame), sleepTime, nextCount);
    }

    /**
     * The capture loop, run for one cycle per observation with the counter
     * starting at zero. It follows the bounded-run specification, shows one
     * frame per successful capture, and runs the chain on `(k + 2) / 3` cycles
     * when `k` captures succeed.
     */
    method ProcessWebcam(resize: F -> F, observations: seq<Cycle.Observation<F>>) returns (trace: seq<Cycle.Outcome<F>>)
      ensures trace == Cycle.Run(Config(), resize, 0, observations)
      ensures Cycle.ShownCount(trace) == Cycle.Successes(observations)
      ensures Cycle.ProcessedCount(trace) == (Cycle.Successes(observations) + 2) / 3
    {
      var frameCount: nat := 0;
      trace := [];
      var i := 0;
      while i < |observations|
        invariant 0 <= i <= |observations|
        invariant trace + Cycle.Run(Config(), resize, frameCount, observations[i..]) == Cycle.Run(Config(), resize, 0, observations)
      {
        var outcome := Step(frameCount, resize, observations[i]);
        assert observations[i..][1..] == observations[i + 1..];
        trace := trace + [outcome];
        frameCount := outcome.frameCount;
        i := i + 1;
      }
      assert observations[i..] == [];
      Cycle.RunShownCount(Config(), resize, 0, observations);
      Cycle.RunProcessedFromZero(Config(), resize, observations);
    }
  }
}
