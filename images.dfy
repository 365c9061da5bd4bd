/**
 * The image panel: a camera loop that redraws the canvas from the video
 * unless the frame is frozen and classifies it at most once per frame
 * interval, an upload path that classifies one picture, and the merge of
 * the loaded model's labels.
 */
module Images {
  import opened Wrappers
  import opened Ranking
  import opened Devices
  import ML = ModelLoader
  import Ui

  /** The labels used when the loader supplies none. */
  const Classes: seq<string> := ["Futbol", "Basket", "Tenis"]

  const DefaultFps: real := 30.0

  /** `imageSize`: the size the canvas is resized to before prediction. */
  datatype Size = Size(width: real, height: real)

  const DefaultSize: Size := Size(224.0, 224.0)

  /**
   * The fps slider: `Number(value) || 30`. `None` is a value that is not a
   * number (NaN, which is falsy like zero).
   */
  function SliderFps(value: Option<real>): (fps: real)
    ensures fps != 0.0
    ensures value.Some? && value.value != 0.0 ==> fps == value.value
    ensures value.None? || value.value == 0.0 ==> fps == DefaultFps
  {
    if value.Some? && value.value != 0.0 then value.value else DefaultFps
  }

  /** `loaded.imageSize`: the image loader's result has no such field. */
  function LoadedSize(loaded: ML.ImageLoaded): Option<Size> {
    None
  }

  /** A loaded size replaces the current one only when both its width and height are truthy. */
  function MergeSize(current: Size, loaded: Option<Size>): (s: Size)
    ensures loaded.Some? && loaded.value.width != 0.0 && loaded.value.height != 0.0 ==> s == loaded.value
    ensures loaded.None? || loaded.value.width == 0.0 || loaded.value.height == 0.0 ==> s == current
  {
    if loaded.Some? && loaded.value.width != 0.0 && loaded.value.height != 0.0 then loaded.value else current
  }

  /** Since the loader never reports a size, the panel always predicts at its initial size. */
  lemma SizeNeverReplaced(current: Size, loaded: ML.ImageLoaded)
    ensures MergeSize(current, LoadedSize(loaded)) == current
  {
  }

  /**
   * The model as seen from the panel: from the canvas content, resized to
   * the given size, to the output probabilities, or None when that throws.
   */
  type Predictor = (Canvas, Size) -> Option<seq<Prob>>

  /**
   * What `infer()` publishes: nothing without a model or without the `tf`
   * global, nothing when prediction throws (the error is only logged),
   * otherwise the labels paired with the outputs, verbatim, sorted.
   */
  function Inference(model: Option<ML.Handle>, labels: seq<string>, size: Size, canvas: Canvas,
                     tf: bool, predict: Predictor): (r: Option<seq<Entry>>)
    ensures r.Some? <==> model.Some? && tf && predict(canvas, size).Some?
    ensures r.Some? ==> r.value == Rank(labels, predict(canvas, size).value, map[])
  {
    if model.None? || !tf then None
    else match predict(canvas, size)
      case None => None
      case Some(probs) => Some(Rank(labels, probs, map[]))
  }

  /** A published ranking lists the labels themselves, each with its output, best first. */
  lemma InferenceShowsLabels(model: Option<ML.Handle>, labels: seq<string>, size: Size, canvas: Canvas,
                             tf: bool, predict: Predictor)
    requires Inference(model, labels, size, canvas, tf, predict).Some?
    ensures var r := Inference(model, labels, size, canvas, tf, predict).value;
      var probs := predict(canvas, size).value;
      && |r| == |labels| && NonIncreasing(r)
      && multiset(r) == multiset(seq(|labels|, i requires 0 <= i < |labels| => Entry(labels[i], ProbAt(probs, i))))
  {
    var probs := predict(canvas, size).value;
    assert Mapped(labels, probs, map[]) == seq(|labels|, i requires 0 <= i < |labels| => Entry(labels[i], ProbAt(probs, i)));
  }

  /** `now - last >= intervalMs`: the loop's rate gate. */
  predicate Due(now: real, last: real, intervalMs: real) {
    now - last >= intervalMs
  }

  /** Inference times of one loop: each at least `intervalMs` after the previous one, the first after time 0. */
  ghost predicate Spaced(fired: seq<real>, intervalMs: real) {
    && (|fired| > 0 ==> fired[0] >= intervalMs)
    && forall i :: 0 < i < |fired| ==> Gap(fired, i) >= intervalMs
  }

  /** The time between inference `i` and the one before it. */
  ghost function Gap(fired: seq<real>, i: nat): real
    requires 0 < i < |fired|
  {
    fired[i] - fired[i - 1]
  }

  /** `last`: the time of the loop's latest inference, or 0 before the first. */
  ghost function LastFired(fired: seq<real>): real {
    if fired == [] then 0.0 else fired[|fired| - 1]
  }

  /** A firing allowed by the gate keeps the loop's inferences spaced. */
  lemma GateKeepsSpacing(fired: seq<real>, intervalMs: real, now: real)
    requires Spaced(fired, intervalMs)
    requires Due(now, LastFired(fired), intervalMs)
    ensures Spaced(fired + [now], intervalMs)
    ensures LastFired(fired + [now]) == now
  {
    var f := fired + [now];
    forall i | 0 < i < |f| ensures Gap(f, i) >= intervalMs {
      if i < |fired| {
        assert f[i] == fired[i] && f[i - 1] == fired[i - 1];
        assert Gap(f, i) == Gap(fired, i);
      } else {
        assert f[i - 1] == LastFired(fired);
      }
    }
  }

  class ImagesPanel {
    var model: Option<ML.Handle>
    var labels: seq<string>
    var imageSize: Size
    var stream: Option<StreamId>
    var live: set<StreamId>          // streams whose tracks have not been stopped
    var nextStream: StreamId         // the id the next camera stream gets
    var running: bool
    var frozen: bool
    var frameQueued: bool            // an animation frame is requested and not cancelled
    var fps: real
    var intervalMs: real             // captured by the running loop at its start
    var last: real                   // the running loop's last inference time
    var videoShown: bool
    var canvas: Canvas
    var status: Ui.Status
    var demoBadgeHidden: bool
    var prediction: seq<Entry>       // the ranking on display
    ghost var fired: seq<real>       // inference times of the current loop
    ghost var inferCalls: seq<Canvas> // the canvas content at every call of `infer()`

    /**
     * A frame is queued exactly while the loop runs; the loop runs only on a
     * held stream; no stream but the held one is live; the loop's gate has
     * kept its inferences spaced by the interval it captured.
     */
    ghost predicate Valid()
      reads this
    {
      && |labels| > 0
      && fps != 0.0
      && (frameQueued <==> running)
      && (running ==> stream.Some?)
      && live <= Held(stream)
      && Spaced(fired, intervalMs)
      && last == LastFired(fired)
    }

    /** The camera is off: no loop, no held stream, no live track. */
    ghost predicate Released()
      reads this
    {
      !running && !frameQueued && stream.None? && live == {}
    }

    /** `initImages()` up to the first `await` of the model load; the camera start is a separate event. */
    constructor (videoShown: bool, demoBadgeHidden: bool)
      ensures Valid() && Released()
      ensures model == None && labels == Classes && imageSize == DefaultSize
      ensures !frozen && fps == DefaultFps && canvas == Blank && prediction == [] && inferCalls == []
      ensures status == Ui.Loading && this.videoShown == videoShown && this.demoBadgeHidden == demoBadgeHidden
    {
      model := None;
      labels := Classes;
      imageSize := DefaultSize;
      stream := None;
      live := {};
      nextStream := 0;
      running := false;
      frozen := false;
      frameQueued := false;
      fps := DefaultFps;
      intervalMs := 1000.0 / DefaultFps;
      last := 0.0;
      this.videoShown := videoShown;
      canvas := Blank;
      status := Ui.Loading;
      this.demoBadgeHidden := demoBadgeHidden;
      prediction := [];
      fired := [];
      inferCalls := [];
    }

    /**
     * The end of `loadModel()`: on success the model is kept, the labels are
     * replaced only by a non-empty list, the size is merged and the demo
     * badge hidden; on failure the status is 'demo', the badge shown and
     * the model stays null.
     */
    method OnLoaded(r: Result<ML.ImageLoaded, ML.LoadError>)
      requires Valid()
      modifies this`model, this`labels, this`imageSize, this`status, this`demoBadgeHidden
      ensures Valid()
      ensures r.Ok? ==> && model == Some(r.value.model)
                        && labels == (if |r.value.labels| > 0 then r.value.labels else old(labels))
                        && imageSize == MergeSize(old(imageSize), LoadedSize(r.value))
                        && status == Ui.Ready && demoBadgeHidden
      ensures r.Err? ==> && model == old(model) && labels == old(labels) && imageSize == old(imageSize)
                         && status == Ui.Demo && !demoBadgeHidden
    {
      if r.Ok? {
        model := Some(r.value.model);
        if |r.value.labels| > 0 {
          labels := r.value.labels;
        }
        imageSize := MergeSize(imageSize, LoadedSize(r.value));
        status := Ui.Ready;
        demoBadgeHidden := true;
      } else {
        status := Ui.Demo;
        demoBadgeHidden := false;
      }
    }

    /**
     * `startCam()`, with the camera's answer as `outcome`: refused, the
     * status is 'denied'; granted but `play()` rejects, the stream is kept
     * and the status is 'denied'; playing, the video is shown, `running`
     * is set and a loop starts. Every caller starts the camera only when
     * no stream is held.
     */
    method StartCam(outcome: CameraOutcome)
      requires Valid() && stream.None?
      modifies this`stream, this`live, this`nextStream, this`status, this`videoShown, this`running,
               this`frameQueued, this`intervalMs, this`last, this`fired
      ensures Valid()
      ensures outcome == Denied ==> status == Ui.Denied && unchanged(this`stream, this`live, this`running, this`frameQueued)
      ensures outcome != Denied ==> stream == Some(old(nextStream)) && live == old(live) + {old(nextStream)}
      ensures outcome == PlayFailed ==> status == Ui.Denied && unchanged(this`running, this`frameQueued)
      ensures outcome == Granted ==> && status == old(status) && videoShown && running && frameQueued
                                     && intervalMs == 1000.0 / fps && last == 0.0 && fired == []
    {
      if outcome == Denied {
        status := Ui.Denied;
        return;
      }
      OpenStream();
      if outcome == PlayFailed {
        status := Ui.Denied;
        return;
      }
      videoShown := true;
      running := true;
      StartLoop();
    }

    /** `getUserMedia` resolves: the panel holds a new, live stream. */
    method OpenStream()
      modifies this`stream, this`live, this`nextStream
      ensures stream == Some(old(nextStream)) && live == old(live) + {old(nextStream)}
      ensures nextStream == old(nextStream) + 1
    {
      stream := Some(nextStream);
      live := live + {nextStream};
      nextStream := nextStream + 1;
    }

    /** `startLoop()`: captures `1000 / fps` as the interval, starts `last` at 0 and requests the first frame. */
    method StartLoop()
      requires fps != 0.0
      modifies this`intervalMs, this`last, this`fired, this`frameQueued
      ensures intervalMs == 1000.0 / fps && last == 0.0 && fired == [] && frameQueued
    {
      intervalMs := 1000.0 / fps;
      last := 0.0;
      fired := [];
      frameQueued := true;
    }

    /**
     * `stopCam()`: stops the loop, cancels its frame, stops every track and
     * drops the stream; on a camera that is already off it changes nothing.
     */
    method StopCam()
      requires Valid()
      modifies this`running, this`frameQueued, this`stream, this`live
      ensures Valid() && Released()
      ensures live == old(live) - Held(old(stream))
      ensures old(Released()) ==> unchanged(this)
    {
      running := false;
      frameQueued := false;
      if stream.Some? {
        live := live - {stream.value};
      }
      stream := None;
    }

    /**
     * `infer()`: the canvas is classified at the current size; the prediction
     * changes only when a ranking is published.
     */
    method Infer(tf: bool, predict: Predictor)
      modifies this`prediction, this`inferCalls
      ensures inferCalls == old(inferCalls) + [canvas]
      ensures var r := Inference(model, labels, imageSize, canvas, tf, predict);
        prediction == if r.Some? then r.value else old(prediction)
    {
      inferCalls := inferCalls + [canvas];
      if model.None? || !tf {
        return;
      }
      match predict(canvas, imageSize)
      case None =>
      case Some(probs) =>
        prediction := Rank(labels, probs, map[]);
    }

    /**
     * One animation frame of the loop at time `now` (`videoReady` is
     * `video.readyState >= 2`). A stopped loop does nothing and is not
     * rescheduled. Otherwise the canvas is redrawn unless frozen, the frame
     * is classified when the gate allows it, and the next frame requested.
     */
    method OnFrame(now: real, videoReady: bool, tf: bool, predict: Predictor)
      requires Valid()
      modifies this`canvas, this`last, this`fired, this`prediction, this`inferCalls, this`frameQueued
      ensures Valid()
      ensures !old(running) ==> unchanged(this)
      ensures old(running) ==> frameQueued
      ensures old(running) ==> canvas == (if !frozen && videoReady then VideoFrame(now) else old(canvas))
      ensures old(running) && Due(now, old(last), intervalMs) ==>
        && last == now && fired == old(fired) + [now] && inferCalls == old(inferCalls) + [canvas]
        && var r := Inference(model, labels, imageSize, canvas, tf, predict);
           prediction == if r.Some? then r.value else old(prediction)
      ensures old(running) && !Due(now, old(last), intervalMs) ==>
        unchanged(this`last, this`fired, this`prediction, this`inferCalls)
    {
      if !running {
        return;
      }
      if !frozen {
        DrawFromVideo(now, videoReady);
      }
      Gate(now, tf, predict);
      frameQueued := true;
    }

    /** The loop's gate: `infer()` runs when `intervalMs` has passed since `last`. */
    method Gate(now: real, tf: bool, predict: Predictor)
      requires Spaced(fired, intervalMs) && last == LastFired(fired)
      modifies this`last, this`fired, this`prediction, this`inferCalls
      ensures Spaced(fired, intervalMs) && last == LastFired(fired)
      ensures Due(now, old(last), intervalMs) ==>
        && last == now && fired == old(fired) + [now] && inferCalls == old(inferCalls) + [canvas]
        && var r := Inference(model, labels, imageSize, canvas, tf, predict);
           prediction == if r.Some? then r.value else old(prediction)
      ensures !Due(now, old(last), intervalMs) ==> unchanged(this`last, this`fired, this`prediction, this`inferCalls)
    {
      if now - last >= intervalMs {
        GateKeepsSpacing(fired, intervalMs, now);
        Fire(now);
        Infer(tf, predict);
      }
    }

    /** `drawFromVideo()`: copies the current video frame, once the video has data. */
    method DrawFromVideo(now: real, videoReady: bool)
      modifies this`canvas
      ensures canvas == if videoReady then VideoFrame(now) else old(canvas)
    {
      if videoReady {
        canvas := VideoFrame(now);
      }
    }

    /** The gate opens: `last = now`. */
    method Fire(now: real)
      modifies this`last, this`fired
      ensures last == now && fired == old(fired) + [now]
    {
      last := now;
      fired := fired + [now];
    }

    /**
     * The freeze button: flips `frozen`; freezing hides the video;
     * unfreezing restarts the camera when no stream is held (with its
     * answer `outcome`) and otherwise shows the video again.
     */
    method ToggleFreeze(outcome: CameraOutcome)
      requires Valid()
      modifies this`frozen, this`videoShown, this`stream, this`live, this`nextStream, this`status, this`running,
               this`frameQueued, this`intervalMs, this`last, this`fired
      ensures Valid()
      ensures frozen == !old(frozen)
      ensures frozen ==> !videoShown && unchanged(this`stream, this`live, this`running, this`status)
      ensures !frozen && old(stream).Some? ==> videoShown && unchanged(this`stream, this`live, this`running, this`status)
      ensures !frozen && old(stream).None? && outcome == Granted ==> running && videoShown && frameQueued
      ensures !frozen && old(stream).None? && outcome != Granted ==> status == Ui.Denied && !running
    {
      frozen := !frozen;
      if frozen {
        videoShown := false;
      } else if stream.None? {
        StartCam(outcome);
      } else {
        videoShown := true;
      }
    }

    /** The fps slider moves: `fps = Number(value) || 30`; a running loop keeps its interval. */
    method SetFps(value: Option<real>)
      requires Valid()
      modifies this`fps
      ensures Valid()
      ensures fps == SliderFps(value)
    {
      fps := SliderFps(value);
    }

    /**
     * An image file is chosen (`file`, None when the selection is empty) and
     * loads (`loads`): the camera stops, the video is hidden, the picture is
     * drawn, the frame frozen, and `infer()` runs once on the picture.
     */
    method Upload(file: Option<nat>, loads: bool, tf: bool, predict: Predictor)
      requires Valid()
      modifies this`running, this`frameQueued, this`stream, this`live, this`videoShown, this`canvas,
               this`frozen, this`prediction, this`inferCalls
      ensures Valid()
      ensures file.None? || !loads ==> unchanged(this)
      ensures file.Some? && loads ==>
        && Released() && live == old(live) - Held(old(stream))
        && !videoShown && frozen && canvas == Picture(file.value)
        && inferCalls == old(inferCalls) + [Picture(file.value)]
        && var r := Inference(model, labels, imageSize, Picture(file.value), tf, predict);
           prediction == if r.Some? then r.value else old(prediction)
    {
      if file.None? || !loads {
        return;
      }
      StopCam();
      ShowPicture(file.value);
      Infer(tf, predict);
    }

    /** The loaded picture replaces the video: drawn on the canvas, the frame frozen. */
    method ShowPicture(file: nat)
      modifies this`videoShown, this`canvas, this`frozen
      ensures !videoShown && canvas == Picture(file) && frozen
    {
      videoShown := false;
      canvas := Picture(file);
      frozen := true;
    }

    /** The cleanup `initImages` returns: `stopCam()`. */
    method Teardown()
      requires Valid()
      modifies this`running, this`frameQueued, this`stream, this`live
      ensures Valid() && Released()
      ensures live == old(live) - Held(old(stream))
    {
      StopCam();
    }
  }
}
