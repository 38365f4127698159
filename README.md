# Webcam capture engine: a Dafny model

This project models the core of `engine.py`, the `Engine` class of a small
webcam pipeline. The engine repeatedly captures a frame, resizes it to
320 by 240, runs it through a chain of processing stages on every third
successful capture, shows it, and sleeps to keep a fixed cadence.

The model has four modules:

- `Wrappers` (wrappers.dfy): an `Option` type.
- `Chain` (chain.dfy): the processing chain, `Engine.custom_processing`, as a
  left-to-right fold `Apply` of stages `seq<F -> F>` over an abstract frame
  type `F`, with its laws (identity, order, composition, preservation).
- `Cycle` (cycle.dfy): one iteration of the `while True` loop of
  `Engine.process_webcam` as a pure transition `Transition` from the counter
  and an `Observation` to an `Outcome`. An `Observation` is the capture result
  (`Unavailable | Empty | Ok(frame)`) and the elapsed time. An `Outcome` holds
  whether the chain ran, the frame shown, the sleep duration and the next
  counter. The module also has a bounded run `Run` of k iterations and the
  lemmas about cycles and runs.
- `Engine` (engine.dfy): the class. Its configuration fields are `const`, so
  nothing after the constructor can change them. `CustomProcessing` is the
  stage loop, `Step` is one loop iteration, and `ProcessWebcam` is the loop run
  over a finite list of observations. Each is proved against the functions
  of `Chain` and `Cycle`.

Collaborators that are not modelled become inputs. The device's answer is a
`Capture` value. The clock difference is a `real` elapsed time in seconds.
The resize call is a function parameter `resize: F -> F`. Frame dimensions are
read through a parameter `size: F -> (nat, nat)`. The predicate
`ResizesToTarget` states that resizing yields 320 by 240. Sleep durations are
the values handed to the sleep call.

Where the intended design and the code differ, the model follows the code:

- On a processed cycle the chain runs twice in a row (engine.py:59-60). The
  frame shown is `Apply(stages, Apply(stages, resize(raw)))`.
- The counter is a local of `process_webcam` (engine.py:35). It advances only
  after a successful capture (engine.py:63). The two failure paths `continue`
  before the increment (engine.py:44, engine.py:52). So the chain runs on the
  1st, 4th, 7th, ... successful capture, not on every third loop iteration.
- A cycle that is not sampled still shows the resized frame, not the raw one
  (engine.py:55, engine.py:65).
- The processing margin is added after every successful capture, whether or
  not the chain ran (engine.py:71).

## Model

| member | source | states |
|---|---|---|
| `Engine.Engine.constructor` | engine.py:11-20 | the configuration fields take the given values (defaults: webcam 0, no stages, interval 5 seconds, taken as a real so a fractional interval is allowed) and the margin is 1.5 s; the fields are `const`, so no cycle changes them |
| `Engine.Engine.CustomProcessing` | engine.py:22-26 | the loop that reassigns the frame stage by stage returns exactly the fold `Chain.Apply` of the configured stages over the input |
| `Chain.ApplyEmpty` | engine.py:24-26 | with no stages the frame comes back unchanged |
| `Chain.ApplyPair` | engine.py:24-26 | for stages `[f, g]` the result is `g(f(x))`: stages run in list order, each fed the previous output |
| `Chain.ApplyAppend` | engine.py:24-26 | running chain `s` then chain `t` equals running `s + t` |
| `Chain.ApplySnoc` | engine.py:24-25 | one more stage at the end is applied to the previous result |
| `Chain.ApplyPreserves` | engine.py:24-26 | a property of frames that every stage keeps is kept by the whole chain |
| `Cycle.AcquiredCycle` | engine.py:40-65 | in terms of the device's answers: if it did not open (:41), or the read failed or gave no frame (:49), the cycle shows nothing, processes nothing, keeps the counter and sleeps the bare interval; otherwise it shows the frame read, resized and, iff the counter is a multiple of 3, run through the chain twice, and the counter advances by 1 |
| `Cycle.SleepAfterCapture` | engine.py:67-71 | the sleep after a capture is at least the margin; it equals the margin exactly when the cycle overran the interval; for non-negative elapsed time it is at most the non-negative interval plus the margin; elapsed plus sleep equals the larger of elapsed and interval, plus the margin |
| `Cycle.SkippedCycle` | engine.py:41-52 | an unavailable device or an empty frame shows nothing, runs no processing, keeps the counter and sleeps exactly the interval, without the margin |
| `Cycle.CapturedCycle` | engine.py:55-71 | after a successful capture the chain runs iff the incoming counter is a multiple of 3; the frame shown is the chain applied twice to the resized frame if it ran, else the resized frame; the counter goes up by exactly 1; the sleep bounds above hold and the margin is always added |
| `Cycle.ShownIffCaptured` | engine.py:41-65 | a cycle shows a frame iff its capture succeeded; it processes only then; the counter advances by 1 on success and by 0 otherwise |
| `Cycle.ShownAtTarget` | engine.py:55-65 | if resizing yields 320 by 240 and no stage changes a frame's size, every frame a cycle shows is 320 by 240 |
| `Engine.Engine.Step` | engine.py:37-71 | one loop iteration, with frame reassigned across the branches, equals `Cycle.Transition`; on failure nothing is shown or processed, the counter is kept and the sleep is the interval; on success a frame is shown, processing happens iff the counter is a multiple of 3, the counter advances by 1 and the sleep is at least the margin |
| `Cycle.RunAt` | engine.py:35-71 | cycle i of a run is the transition taken with the counter equal to the start value plus the number of successful captures before cycle i |
| `Cycle.RunSampling` | engine.py:35-63 | in a run, cycle i processes iff its capture succeeded and (start + successes before i) is a multiple of 3 |
| `Cycle.RunFinalCount` | engine.py:44-63 | after a run the counter has grown by exactly the number of successful captures |
| `Cycle.RunShownCount` | engine.py:41-65 | a run shows exactly one frame per successful capture |
| `Cycle.RunProcessedCount` | engine.py:35-63 | a run processes once for each multiple of 3 the counter passes through |
| `Cycle.SampledBetweenCount` | engine.py:58 | there are `(hi + 2) / 3 - (lo + 2) / 3` multiples of 3 in `[lo, hi)` |
| `Cycle.RunProcessedFromZero` | engine.py:35-63 | starting from counter 0, a run with k successful captures processes `(k + 2) / 3` times, whatever failures lie in between |
| `Cycle.RunWithoutFrames` | engine.py:41-52 | if no capture succeeds, every cycle shows nothing, processes nothing, keeps the counter and sleeps exactly the interval |
| `Cycle.RunShownAtTarget` | engine.py:55-65 | with a target-size resize and size-keeping stages, every frame shown in a run is 320 by 240 |
| `Engine.Engine.ProcessWebcam` | engine.py:34-71 | the loop over a finite list of observations, with the counter starting at 0, produces `Cycle.Run`; it shows one frame per successful capture and processes `(k + 2) / 3` times for k successes |

## Left out

- OpenCV capture, read and release (engine.py:40-47): the device's answer is the `Capture` input. `Cycle.Acquire` classifies the answers of `isOpened()` and `read()`, and `Cycle.AcquiredCycle` states a cycle in their terms.
- Release of the capture object: the Unavailable path (engine.py:41-44) never calls `cap.release()` on the `VideoCapture` built at engine.py:40, while the Empty and successful paths release it at engine.py:47. The model has no device resources and does not capture this difference.
- The pixel semantics of `cv2.resize` (engine.py:55): resizing is the parameter `resize`, and only "the result is 320 by 240" is assumed, through `ResizesToTarget`.
- `display_frame` (engine.py:28-32): windowing and the 500 ms key wait are outside the model. The frame passed to it is the `shown` output.
- `asyncio.sleep`, `asyncio.to_thread` and `asyncio.run` (engine.py:43, 51, 59-60, 71, 74): suspension and thread offload are not modelled. The sleep is an output value and the offloaded chain is an ordinary call.
- `time.time()` (engine.py:38, 67): wall-clock time in floating point. `elapsed` is a `real` input, so float rounding is not modelled.
- The unbounded `while True` (engine.py:37) and `run` (engine.py:73-74): only finite runs, one iteration per observation, are modelled.
- `print` logging (engine.py:42, 50, 61, 70).
- The module-level `frame_count` (engine.py:8): it is never used, since the loop's local shadows it. The `MPSegmentation` import (engine.py:6): selfieSegmentation is not part of this model.
- A stage that raises an exception: stages are total functions `F -> F`, so exception propagation out of the loop is not modelled.
- `custom_objects` is any Python iterable (engine.py:14). The model takes a finite sequence, so a one-shot iterator that is empty on its second pass is not modelled.
- A negative `frame_interval` on the failure path: the model reports the value handed to the sleep call. Python's sleep would return at once for it.
- Stages are pure, deterministic functions `F -> F`. A stage with internal state (a loaded model, a counter) could answer differently on the second pass at engine.py:60 than on the first at engine.py:59, or differently in a later cycle; the model does not capture that. The configured list is also taken as an immutable sequence, whereas engine.py:18 keeps a reference to the caller's list, which the caller could still change.
