/**
 * The attention panel: a camera loop that redraws the canvas on every
 * animation frame and classifies it as "looking" or "not looking" whenever
 * the frame-rate gate lets it through; an uploaded picture stops the camera.
 */
module Poses {
  import opened Wrappers
  import opened Ranking
  import opened Devices
  import ML = ModelLoader
  import Ui

  /** The labels the panel always uses, whatever the model's metadata says. */
  const DefaultPoseLabels: seq<string> := ["mirando", "no_mirando"]

  /** How the two labels are shown. */
  const DisplayPoseLabels: map<string, string> := map[
    "mirando" := "Mirando 👀",
    "no_mirando" := "No mirando ↘️"
  ]

  const DefaultTargetFps: real := 15.0

  /** The fallback of `imgHeight || 160` and `imgWidth || 160`. */
  const FallbackInputSide: real := 160.0

  /** `Number(slider.value)`: a number, or NaN. No fallback replaces either. */
  datatype Fps = Fps(value: real) | NotANumber

  /**
   * The gate `now - lastInferTime < 1000 / targetFPS`, in JS arithmetic:
   * `1000 / 0` is Infinity, which every finite difference is below, and
   * `1000 / NaN` is NaN, which no comparison is below.
   */
  function Blocked(now: real, last: real, fps: Fps): (blocked: bool)
    ensures fps == Fps(0.0) ==> blocked
    ensures fps.NotANumber? ==> !blocked
    ensures fps.Fps? && fps.value != 0.0 ==> (!blocked <==> now - last >= 1000.0 / fps.value)
  {
    match fps
    case NotANumber => false
    case Fps(v) => v == 0.0 || now - last < 1000.0 / v
  }

  /** One inference the gate let through: when, and the rate it was read against. */
  datatype Firing = Firing(at: real, fps: Fps)

  /** `lastInferTime`: the latest inference, or 0 before the first. */
  ghost function LastAt(fired: seq<Firing>): real {
    if fired == [] then 0.0 else fired[|fired| - 1].at
  }

  /** The time inference `i` was gated against: the one before it, or 0 for the first. */
  ghost function Previous(fired: seq<Firing>, i: nat): real
    requires i < |fired|
  {
    if i == 0 then 0.0 else fired[i - 1].at
  }

  /** Inference `i` passed the gate against the one before it. */
  ghost predicate PassedGate(fired: seq<Firing>, i: nat)
    requires i < |fired|
  {
    !Blocked(fired[i].at, Previous(fired, i), fired[i].fps)
  }

  /** Every inference passed the gate. */
  ghost predicate GateRespected(fired: seq<Firing>) {
    forall i :: 0 <= i < |fired| ==> PassedGate(fired, i)
  }

  /** An inference the gate lets through keeps the log gated. */
  lemma GateKeepsLog(fired: seq<Firing>, now: real, fps: Fps)
    requires GateRespected(fired)
    requires !Blocked(now, LastAt(fired), fps)
    ensures GateRespected(fired + [Firing(now, fps)])
    ensures LastAt(fired + [Firing(now, fps)]) == now
  {
    var f := fired + [Firing(now, fps)];
    forall i | 0 <= i < |f|
      ensures PassedGate(f, i)
    {
      if i < |fired| {
        assert f[i] == fired[i];
        if i > 0 {
          assert f[i - 1] == fired[i - 1];
        }
        assert Previous(f, i) == Previous(fired, i);
        assert PassedGate(fired, i);
      } else {
        assert f[i] == Firing(now, fps);
        if i > 0 {
          assert f[i - 1] == fired[|fired| - 1];
        }
      }
    }
  }

  /**
   * In a gated log nothing ran at rate 0, and inferences read against a
   * positive rate are at least a frame interval after the previous one.
   */
  lemma GatedLogSpacing(fired: seq<Firing>, i: nat)
    requires GateRespected(fired)
    requires 0 < i < |fired|
    ensures fired[i].fps != Fps(0.0)
    ensures fired[i].fps.Fps? && fired[i].fps.value > 0.0 ==>
      fired[i].at - fired[i - 1].at >= 1000.0 / fired[i].fps.value
  {
    assert PassedGate(fired, i);
  }

  /** Whether `inferFrame()` at `now` gets past its guards (a model, a running camera, `tf`) and its gate. */
  predicate Passes(model: Option<ML.Handle>, running: bool, tf: bool, now: real, last: real, fps: Fps) {
    model.Some? && running && tf && !Blocked(now, last, fps)
  }

  /** The model as seen from the panel: from the canvas to the output probabilities, or None when that throws. */
  type Predictor = Canvas -> Option<seq<Prob>>

  /**
   * The `try` block of `inferFrame()`: the labels paired with their display
   * names and outputs, sorted; it throws (None) when prediction throws and
   * when the ranking is empty, since `best.label` is then read from `undefined`.
   */
  function FrameInference(labels: seq<string>, canvas: Canvas, predict: Predictor): (r: Option<seq<Entry>>)
    ensures r.Some? <==> predict(canvas).Some? && |labels| > 0
  {
    match predict(canvas)
    case None => None
    case Some(probs) =>
      var ranked := Rank(labels, probs, DisplayPoseLabels);
      if ranked == [] then None else Some(ranked)
  }

  /** A published ranking holds every label once, by its display name, best first. */
  lemma FrameInferenceRanks(labels: seq<string>, canvas: Canvas, predict: Predictor)
    requires FrameInference(labels, canvas, predict).Some?
    ensures var r := FrameInference(labels, canvas, predict).value;
      && |r| == |labels| && NonIncreasing(r)
      && multiset(r) == multiset(Mapped(labels, predict(canvas).value, DisplayPoseLabels))
      && r[0] in Mapped(labels, predict(canvas).value, DisplayPoseLabels)
      && forall i :: 0 <= i < |labels| ==> r[0].prob >= ProbAt(predict(canvas).value, i)
  {
    BestIsMaximum(labels, predict(canvas).value, DisplayPoseLabels);
  }

  /**
   * With the panel's two labels, a successful inference shows both display
   * names, the more probable first and "Mirando 👀" first on a tie.
   */
  lemma PoseRanking(canvas: Canvas, predict: Predictor)
    requires predict(canvas).Some?
    ensures var probs := predict(canvas).value;
      var looking := Entry("Mirando 👀", ProbAt(probs, 0));
      var away := Entry("No mirando ↘️", ProbAt(probs, 1));
      FrameInference(DefaultPoseLabels, canvas, predict) ==
        Some(if looking.prob >= away.prob then [looking, away] else [away, looking])
  {
    var probs := predict(canvas).value;
    var m := Mapped(DefaultPoseLabels, probs, DisplayPoseLabels);
    assert m == [Entry("Mirando 👀", ProbAt(probs, 0)), Entry("No mirando ↘️", ProbAt(probs, 1))];
    SortTwo(m[0], m[1]);
  }

  class PosesPanel {
    var model: Option<ML.Handle>
    var labels: seq<string>
    var inputH: real                 // kept, but preprocessing always resizes to 224x224
    var inputW: real
    var stream: Option<StreamId>
    var live: set<StreamId>          // streams whose tracks have not been stopped
    var nextStream: StreamId         // the id the next camera stream gets
    var running: bool
    var useCam: bool
    var targetFPS: Fps
    var lastInferTime: real
    var frameQueued: bool            // an animation frame is requested and has not fired yet
    var canvas: Canvas
    var status: Ui.Status
    var prediction: seq<Entry>       // the ranking on display
    ghost var fired: seq<Firing>     // every inference the gate let through
    ghost var loadSettled: bool      // the model load has resolved or rejected

    /**
     * A running loop has a stream and the camera in use; no stream but the held one is live; nothing ran before the model
     * loaded; the gate has kept every inference apart from the previous one.
     */
    ghost predicate Consistent()
      reads this
    {
      && (running ==> stream.Some? && useCam)
      && live <= Held(stream)
      && (model.None? ==> fired == [])
      && (!loadSettled ==> model.None? && !running && !frameQueued && stream.None?)
      && GateRespected(fired)
      && lastInferTime == LastAt(fired)
    }

    /** Between events, a running loop also has its next frame requested. */
    ghost predicate Valid()
      reads this
    {
      Consistent() && (running ==> frameQueued)
    }

    /** `initPoses()` up to the first `await`; `slider` is the fps slider's value when the slider is present. */
    constructor (slider: Option<Fps>)
      ensures Valid() && !loadSettled
      ensures model == None && labels == DefaultPoseLabels && inputH == 224.0 && inputW == 224.0
      ensures stream == None && live == {} && !running && useCam && !frameQueued
      ensures targetFPS == (if slider.Some? then slider.value else Fps(DefaultTargetFps))
      ensures lastInferTime == 0.0 && canvas == Blank && status == Ui.Loading && prediction == []
    {
      model := None;
      labels := DefaultPoseLabels;
      inputH := 224.0;
      inputW := 224.0;
      stream := None;
      live := {};
      nextStream := 0;
      running := false;
      useCam := true;
      targetFPS := if slider.Some? then slider.value else Fps(DefaultTargetFps);
      lastInferTime := 0.0;
      frameQueued := false;
      canvas := Blank;
      status := Ui.Loading;
      prediction := [];
      fired := [];
      loadSettled := false;
    }

    /**
     * `inferFrame()` at time `now`: without a model, a running camera or the
     * `tf` global, or inside the gate's interval, nothing happens. Otherwise
     * `lastInferTime` becomes `now` and the current canvas is classified:
     * the ranking replaces the prediction, or the status becomes 'error'.
     */
    method InferFrame(now: real, tf: bool, predict: Predictor)
      requires Consistent()
      modifies this`lastInferTime, this`fired, this`prediction, this`status
      ensures Consistent()
      ensures !Passes(model, running, tf, now, old(lastInferTime), targetFPS) ==>
        unchanged(this`lastInferTime, this`fired, this`prediction, this`status)
      ensures Passes(model, running, tf, now, old(lastInferTime), targetFPS) ==>
        lastInferTime == now && fired == old(fired) + [Firing(now, targetFPS)]
      ensures Passes(model, running, tf, now, old(lastInferTime), targetFPS) ==>
        var r := FrameInference(labels, canvas, predict);
        && prediction == (if r.Some? then r.value else old(prediction))
        && status == (if r.Some? then old(status) else Ui.Error)
    {
      if model.None? || !running {
        return;
      }
      if !tf {
        return;
      }
      if Blocked(now, lastInferTime, targetFPS) {
        return;
      }
      GateKeepsLog(fired, now, targetFPS);
      lastInferTime := now;
      fired := fired + [Firing(now, targetFPS)];
      match FrameInference(labels, canvas, predict)
      case Some(ranked) =>
        prediction := ranked;
      case None =>
        status := Ui.Error;
    }

    /** `drawFromVideo()` inside a running camera loop: copies the frame once the video has data. */
    method DrawFromVideo(now: real, videoReady: bool)
      modifies this`canvas
      ensures canvas == if videoReady then VideoFrame(now) else old(canvas)
    {
      if videoReady {
        canvas := VideoFrame(now);
      }
    }

    /**
     * The body of `loop()` on a running camera: the frame is drawn and
     * offered to `inferFrame()`, and the next frame is requested.
     */
    method LoopBody(now: real, videoReady: bool, tf: bool, predict: Predictor)
      requires Consistent() && running
      modifies this`canvas, this`lastInferTime, this`fired, this`prediction, this`status, this`frameQueued
      ensures Valid() && frameQueued
      ensures canvas == if videoReady then VideoFrame(now) else old(canvas)
      ensures !Passes(model, running, tf, now, old(lastInferTime), targetFPS) ==>
        unchanged(this`lastInferTime, this`fired, this`prediction, this`status)
      ensures Passes(model, running, tf, now, old(lastInferTime), targetFPS) ==>
        lastInferTime == now && fired == old(fired) + [Firing(now, targetFPS)]
      ensures Passes(model, running, tf, now, old(lastInferTime), targetFPS) ==>
        var r := FrameInference(labels, canvas, predict);
        && prediction == (if r.Some? then r.value else old(prediction))
        && status == (if r.Some? then old(status) else Ui.Error)
    {
      if useCam {
        DrawFromVideo(now, videoReady);
        InferFrame(now, tf, predict);
      }
      frameQueued := true;
    }

    /**
     * A requested animation frame fires at `now`: a stopped loop ends there;
     * a running one does the loop body.
     */
    method OnFrame(now: real, videoReady: bool, tf: bool, predict: Predictor)
      requires Valid() && frameQueued
      modifies this`canvas, this`lastInferTime, this`fired, this`prediction, this`status, this`frameQueued
      ensures Valid()
      ensures frameQueued == old(running)
      ensures !old(running) ==> unchanged(this`canvas, this`lastInferTime, this`fired, this`prediction, this`status)
      ensures old(running) ==> canvas == if videoReady then VideoFrame(now) else old(canvas)
      ensures old(running) && !Passes(model, running, tf, now, old(lastInferTime), targetFPS) ==>
        unchanged(this`lastInferTime, this`fired, this`prediction, this`status)
      ensures Passes(model, running, tf, now, old(lastInferTime), targetFPS) ==>
        lastInferTime == now && fired == old(fired) + [Firing(now, targetFPS)]
      ensures Passes(model, running, tf, now, old(lastInferTime), targetFPS) ==>
        var r := FrameInference(labels, canvas, predict);
        && prediction == (if r.Some? then r.value else old(prediction))
        && status == (if r.Some? then old(status) else Ui.Error)
    {
      frameQueued := false;
      if !running {
        return;
      }
      LoopBody(now, videoReady, tf, predict);
    }

    /** `getUserMedia` resolves: the panel holds a new, live stream. */
    method OpenStream()
      modifies this`stream, this`live, this`nextStream
      ensures stream == Some(old(nextStream)) && live == old(live) + {old(nextStream)}
      ensures nextStream == old(nextStream) + 1
    {
      stream := Some(nextStream);
      live := live + {nextStream};
      nextStream := nextStream + 1;
    }

    /**
     * `startCamera()`, with the camera's answer as `outcome` and the loop's
     * first pass at `now`: without `tf` nothing happens; otherwise the status
     * is 'loading', then 'denied' when the camera is refused or does not
     * play (a stream obtained is kept); when it plays the camera loop starts
     * with status 'ready' and runs its body at once.
     */
    method StartCamera(tf: bool, outcome: CameraOutcome, now: real, videoReady: bool, predict: Predictor)
      requires Valid() && loadSettled && stream.None? && !running && !frameQueued
      modifies this`stream, this`live, this`nextStream, this`running, this`useCam, this`status,
               this`canvas, this`lastInferTime, this`fired, this`prediction, this`frameQueued
      ensures Valid()
      ensures !tf ==> unchanged(this)
      ensures tf && outcome == Denied ==>
        status == Ui.Denied && unchanged(this`stream, this`live, this`running, this`useCam, this`frameQueued)
      ensures tf && outcome != Denied ==> stream == Some(old(nextStream)) && live == old(live) + {old(nextStream)}
      ensures tf && outcome == PlayFailed ==> status == Ui.Denied && unchanged(this`running, this`useCam, this`frameQueued)
      ensures tf && outcome != Granted ==> unchanged(this`canvas, this`lastInferTime, this`fired, this`prediction)
      ensures tf && outcome == Granted ==> running && useCam && frameQueued
      ensures tf && outcome == Granted ==> canvas == if videoReady then VideoFrame(now) else old(canvas)
      ensures tf && outcome == Granted ==>
        var infers := model.Some? && !Blocked(now, old(lastInferTime), targetFPS);
        var r := FrameInference(labels, canvas, predict);
        && (!infers ==> status == Ui.Ready && unchanged(this`lastInferTime, this`fired, this`prediction))
        && (infers ==> lastInferTime == now && fired == old(fired) + [Firing(now, targetFPS)])
        && (infers ==> prediction == (if r.Some? then r.value else old(prediction)))
        && (infers ==> status == (if r.Some? then Ui.Ready else Ui.Error))
    {
      if !tf {
        return;
      }
      status := Ui.Loading;
      if outcome == Denied {
        status := Ui.Denied;
        return;
      }
      OpenStream();
      if outcome == PlayFailed {
        status := Ui.Denied;
        return;
      }
      RunCamera(now, videoReady, tf, predict);
    }

    /**
     * The video plays: the loop runs with the camera in use, the status is
     * 'ready', and `loop()` does its body at once.
     */
    method RunCamera(now: real, videoReady: bool, tf: bool, predict: Predictor)
      requires Consistent() && tf && stream.Some?
      modifies this`running, this`useCam, this`status,
               this`canvas, this`lastInferTime, this`fired, this`prediction, this`frameQueued
      ensures Valid() && running && useCam && frameQueued
      ensures canvas == if videoReady then VideoFrame(now) else old(canvas)
      ensures var infers := model.Some? && !Blocked(now, old(lastInferTime), targetFPS);
        var r := FrameInference(labels, canvas, predict);
        && (!infers ==> status == Ui.Ready && unchanged(this`lastInferTime, this`fired, this`prediction))
        && (infers ==> lastInferTime == now && fired == old(fired) + [Firing(now, targetFPS)])
        && (infers ==> prediction == (if r.Some? then r.value else old(prediction)))
        && (infers ==> status == (if r.Some? then Ui.Ready else Ui.Error))
    {
      running := true;
      useCam := true;
      status := Ui.Ready;
      LoopBody(now, videoReady, tf, predict);
    }

    /**
     * `stopCamera()`: stops every track of the held stream and the loop.
     * The stream itself stays referenced.
     */
    method StopCamera()
      requires Valid()
      modifies this`live, this`running
      ensures Valid()
      ensures !running && live == old(live) - Held(stream) && live == {}
    {
      if stream.Some? {
        live := live - {stream.value};
      }
      running := false;
    }

    /**
     * The end of the model load, with the loader's result `r` and, on
     * success, the camera's answer: the model is kept, the labels are reset
     * to the panel's own two, the input side lengths take the loaded ones
     * or 160, the status is 'ready' and the camera starts. A rejected load
     * sets 'error' and leaves the camera off.
     */
    method OnLoaded(r: Result<ML.PoseLoaded, ML.LoadError>, tf: bool, outcome: CameraOutcome,
                    now: real, videoReady: bool, predict: Predictor)
      requires Valid() && !loadSettled
      modifies this`model, this`labels, this`inputH, this`inputW, this`loadSettled,
               this`stream, this`live, this`nextStream, this`running, this`useCam, this`status,
               this`canvas, this`lastInferTime, this`fired, this`prediction, this`frameQueued
      ensures Valid() && loadSettled
      ensures r.Err? ==> && status == Ui.Error && model == None && !running && !frameQueued
                         && unchanged(this`inputH, this`inputW, this`stream, this`live, this`prediction)
      ensures r.Ok? ==> && model == Some(r.value.model) && labels == DefaultPoseLabels
                        && inputH == OrDefault(r.value.inputShape.imgHeight, FallbackInputSide)
                        && inputW == OrDefault(r.value.inputShape.imgWidth, FallbackInputSide)
      ensures r.Ok? && !tf ==> status == Ui.Ready && !running && stream == None
      ensures r.Ok? && tf && outcome != Granted ==> status == Ui.Denied && !running && !frameQueued
      ensures r.Ok? && tf && outcome == Granted ==>
        && running && frameQueued && stream.Some? && live == {stream.value}
        && canvas == (if videoReady then VideoFrame(now) else old(canvas))
        && var inferred := FrameInference(labels, canvas, predict);
           if Blocked(now, 0.0, targetFPS) then status == Ui.Ready && fired == [] && prediction == old(prediction)
           else && fired == [Firing(now, targetFPS)]
                && prediction == (if inferred.Some? then inferred.value else old(prediction))
                && status == (if inferred.Some? then Ui.Ready else Ui.Error)
    {
      loadSettled := true;
      if r.Err? {
        status := Ui.Error;
        return;
      }
      Adopt(r.value);
      StartCamera(tf, outcome, now, videoReady, predict);
    }

    /** A resolved load: its model, the panel's own labels, the side lengths or 160, status 'ready'. */
    method Adopt(loaded: ML.PoseLoaded)
      modifies this`model, this`labels, this`inputH, this`inputW, this`status
      ensures model == Some(loaded.model) && labels == DefaultPoseLabels && status == Ui.Ready
      ensures inputH == OrDefault(loaded.inputShape.imgHeight, FallbackInputSide)
      ensures inputW == OrDefault(loaded.inputShape.imgWidth, FallbackInputSide)
    {
      model := Some(loaded.model);
      labels := DefaultPoseLabels;
      inputH := OrDefault(loaded.inputShape.imgHeight, FallbackInputSide);
      inputW := OrDefault(loaded.inputShape.imgWidth, FallbackInputSide);
      status := Ui.Ready;
    }

    /** The fps slider moves: the next gate reads the new value, NaN and 0 included. */
    method SetFps(value: Fps)
      requires Valid()
      modifies this`targetFPS
      ensures Valid() && targetFPS == value
    {
      targetFPS := value;
    }

    /**
     * An image file is chosen (`file`, None for an empty selection): the
     * camera stops and is no longer used; the picture is drawn when it loads.
     */
    method Upload(file: Option<nat>)
      requires Valid()
      modifies this`live, this`running, this`useCam
      ensures Valid()
      ensures file.None? ==> unchanged(this`live, this`running, this`useCam)
      ensures file.Some? ==> !running && !useCam && live == {} && live == old(live) - Held(stream)
    {
      if file.None? {
        return;
      }
      StopCamera();
      useCam := false;
    }

    /**
     * The chosen picture loads at `now`: it is drawn on the canvas and
     * `inferFrame()` is called, which with the camera stopped does nothing.
     */
    method OnPictureLoaded(file: nat, now: real, tf: bool, predict: Predictor)
      requires Valid()
      modifies this`canvas, this`lastInferTime, this`fired, this`prediction, this`status
      ensures Valid() && canvas == Picture(file)
      ensures !old(running) ==> unchanged(this`lastInferTime, this`fired, this`prediction, this`status)
      ensures Passes(model, running, tf, now, old(lastInferTime), targetFPS) ==>
        lastInferTime == now && fired == old(fired) + [Firing(now, targetFPS)]
      ensures Passes(model, running, tf, now, old(lastInferTime), targetFPS) ==>
        var r := FrameInference(labels, Picture(file), predict);
        && prediction == (if r.Some? then r.value else old(prediction))
        && status == (if r.Some? then old(status) else Ui.Error)
    {
      canvas := Picture(file);
      InferFrame(now, tf, predict);
    }

    /** The cleanup `initPoses` returns: `stopCamera()`; clearing the overlay only draws. */
    method Teardown()
      requires Valid()
      modifies this`live, this`running
      ensures Valid() && !running && live == {}
      ensures live == old(live) - Held(stream)
    {
      StopCamera();
    }
  }
}
