/**
 * The audio panel: a clip is recorded from the microphone (or uploaded),
 * resampled to a fixed number of samples, classified once, and ranked.
 */
module Audio {
  import opened Wrappers
  import opened Ranking
  import opened Devices
  import ML = ModelLoader
  import Ui

  /** The classes the model is assumed to have when the loader supplies none. */
  const DefaultClasses: seq<string> := ["espanol", "ingles", "aleman"]

  /** How the known classes are shown. */
  const DisplayLabels: map<string, string> := map[
    "espanol" := "Español 🇪🇸",
    "ingles" := "Inglés 🇬🇧",
    "aleman" := "Alemán 🇩🇪"
  ]

  const DefaultSampleRate: real := 16000.0
  const DefaultDuration: real := 5.0

  /** The number of samples the model expects: rate times duration, rounded down, with zero fields defaulted. */
  function NumSamples(cfg: ML.AudioConfig): (n: int)
    ensures var window := OrDefault(cfg.sampleRate, DefaultSampleRate) * OrDefault(cfg.duration, DefaultDuration);
      n as real <= window < n as real + 1.0
  {
    (OrDefault(cfg.sampleRate, DefaultSampleRate) * OrDefault(cfg.duration, DefaultDuration)).Floor
  }

  /** With the default configuration, or with both fields zero, the clip has 80000 samples. */
  lemma DefaultNumSamples()
    ensures NumSamples(ML.DefaultAudioConfig) == 80000
    ensures NumSamples(ML.AudioConfig(0.0, 0.0)) == 80000
  {
  }

  /** How long a recording may last before it is stopped automatically, in milliseconds. */
  function AutoStopDelay(cfg: ML.AudioConfig): (ms: real)
    ensures cfg.duration != 0.0 ==> ms == cfg.duration * 1000.0
    ensures cfg.duration == 0.0 ==> ms == 4000.0
  {
    if cfg.duration != 0.0 then cfg.duration * 1000.0 else 4000.0
  }

  /**
   * The two fallbacks for a zero duration disagree: the recording stops after
   * four seconds while the model input is sized for five.
   */
  lemma ZeroDurationFallbacksDisagree(sampleRate: real)
    requires sampleRate > 0.0
    ensures AutoStopDelay(ML.AudioConfig(sampleRate, 0.0)) == 4000.0
    ensures NumSamples(ML.AudioConfig(sampleRate, 0.0)) == (sampleRate * 5.0).Floor
  {
  }

  // ---------------------------------------------------------------- resampling

  lemma SmallMultipleIsZero(k: int, n: int)
    requires n > 0 && 0 <= k * n < n
    ensures k == 0
  {
  }

  lemma PositiveMultiple(k: int, n: int)
    requires n > 0 && k * n > 0
    ensures k > 0
  {
  }

  /** Floor division bounds: the quotient of `i * len` by `n` lies below `len` when `i < n`. */
  lemma QuotientBelow(i: nat, len: nat, n: nat)
    requires i < n
    ensures (i * len) / n * n <= i * len < (i * len) / n * n + n
    ensures len > 0 ==> (i * len) / n < len
  {
    var q := (i * len) / n;
    assert q * n + (i * len) % n == i * len;
    if len > 0 {
      assert (n - i) * len > 0;
      assert (len - q) * n == len * n - q * n;
      PositiveMultiple(len - q, n);
    }
  }

  /** `Math.floor(i * len / targetLength)`: the input sample that output sample `i` copies. */
  function SourceIndex(i: nat, len: nat, n: nat): (idx: nat)
    requires i < n
    ensures len > 0 ==> idx < len
    ensures idx * n <= i * len < idx * n + n
  {
    QuotientBelow(i, len, n);
    (i * len) / n
  }

  /** The output of `resampleToFixedLength(data, n)`: nearest-neighbour resampling; zeros for an empty input. */
  function Resampled(data: seq<real>, n: nat): (out: seq<real>)
    ensures |out| == n
  {
    if |data| == 0 then seq(n, _ => 0.0)
    else seq(n, i requires 0 <= i < n => data[SourceIndex(i, |data|, n)])
  }

  /** `resampleToFixedLength`: fills a zeroed buffer of `targetLength` samples. */
  method ResampleToFixedLength(data: seq<real>, targetLength: nat) returns (out: array<real>)
    ensures fresh(out)
    ensures out[..] == Resampled(data, targetLength)
  {
    out := new real[targetLength](_ => 0.0);
    var len := |data|;
    if len == 0 {
      return;
    }
    var i := 0;
    while i < targetLength
      invariant 0 <= i <= targetLength
      invariant forall k :: 0 <= k < i ==> out[k] == data[SourceIndex(k, len, targetLength)]
    {
      out[i] := data[SourceIndex(i, len, targetLength)];
      i := i + 1;
    }
  }

  /** Every output sample is an input sample, and an empty input gives silence. */
  lemma ResampledSamples(data: seq<real>, n: nat)
    ensures |data| == 0 ==> forall i :: 0 <= i < n ==> Resampled(data, n)[i] == 0.0
    ensures |data| > 0 ==> forall i :: 0 <= i < n ==>
      var idx := SourceIndex(i, |data|, n); idx < |data| && Resampled(data, n)[i] == data[idx]
  {
  }

  lemma SourceIndexIdentity(i: nat, n: nat)
    requires i < n
    ensures SourceIndex(i, n, n) == i
  {
    var q := SourceIndex(i, n, n);
    assert (i - q) * n == i * n - q * n;
    SmallMultipleIsZero(i - q, n);
  }

  /** Resampling to the input's own length gives the input back. */
  lemma ResampleIdentity(data: seq<real>)
    ensures Resampled(data, |data|) == data
  {
    forall i | 0 <= i < |data| ensures Resampled(data, |data|)[i] == data[i] {
      SourceIndexIdentity(i, |data|);
    }
  }

  // ---------------------------------------------------------------- inference

  datatype InferenceError =
    | NoStft          // `tf.signal.stft` is missing
    | NoModel         // no model has been loaded
    | NegativeLength  // `new Float32Array(numSamples)` throws for a negative length
    | DecodeFailed    // the recording or file could not be decoded
    | PredictFailed   // the spectrogram, `predict` or reading its output threw

  /**
   * The model as seen from the panel: from the resampled clip (through the
   * spectrogram the external runtime computes) to the output probabilities,
   * or None when that throws.
   */
  type Predictor = seq<real> -> Option<seq<Prob>>

  /** What `runInferenceOnBuffer` publishes, or why it throws. */
  function Inference(model: Option<ML.Handle>, labels: seq<string>, cfg: ML.AudioConfig, channel: seq<real>,
                     stft: bool, predict: Predictor): (r: Result<seq<Entry>, InferenceError>)
    ensures r.Ok? <==> (stft && model.Some? && NumSamples(cfg) >= 0 &&
      predict(Resampled(channel, NumSamples(cfg) as nat)).Some?)
    ensures r.Ok? ==> (|r.value| == |labels| && NonIncreasing(r.value) &&
      r.value == Rank(labels, predict(Resampled(channel, NumSamples(cfg) as nat)).value, DisplayLabels))
  {
    if !stft then Err(NoStft)
    else if model.None? then Err(NoModel)
    else if NumSamples(cfg) < 0 then Err(NegativeLength)
    else match predict(Resampled(channel, NumSamples(cfg) as nat))
      case None => Err(PredictFailed)
      case Some(probs) => Ok(Rank(labels, probs, DisplayLabels))
  }

  /** `recorder.state` of a `MediaRecorder`. */
  datatype RecorderState = Recording | Inactive

  function RemoveAt(s: seq<real>, k: nat): (r: seq<real>)
    requires k < |s|
    ensures |r| == |s| - 1
    ensures forall x :: x in s && x != s[k] ==> x in r
    ensures multiset(r) == multiset(s) - multiset{s[k]}
  {
    var r := s[..k] + s[k + 1..];
    assert s == s[..k] + [s[k]] + s[k + 1..];
    assert multiset(s) == multiset(s[..k]) + multiset{s[k]} + multiset(s[k + 1..]);
    assert forall x :: x in s && x != s[k] ==> x in r by {
      forall x | x in s && x != s[k] ensures x in r {
        var j :| 0 <= j < |s| && s[j] == x;
        if j < k { assert r[j] == x; } else { assert r[j - 1] == x; }
      }
    }
    r
  }

  class AudioPanel {
    var model: Option<ML.Handle>
    var labels: seq<string>
    var audioCfg: ML.AudioConfig
    var mediaStream: Option<StreamId>
    var live: set<StreamId>          // streams whose tracks have not been stopped
    var nextStream: StreamId         // the id the next microphone stream gets
    var recorder: Option<RecorderState>
    var recording: bool
    var stopQueued: bool             // `mediaRecorder.stop()` was called and `onstop` has not run yet
    var liveVis: bool                // the live oscilloscope is running
    var timers: seq<real>            // due times of the auto-stop timers that have not fired
    ghost var deadline: real         // due time of the timer set by the latest start
    var controlsDisabled: bool       // the start and stop buttons are disabled
    var status: Ui.Status
    var prediction: seq<Entry>       // the ranking on display; [] once it is cleared

    /**
     * A recorder that is recording has its auto-stop timer pending; a stop
     * that was asked for has not yet been processed exactly while `recording`
     * holds and the recorder is inactive; the panel holds a stream exactly
     * while recording, and no stream but the held one is live.
     */
    ghost predicate Valid()
      reads this
    {
      && |labels| > 0
      && (stopQueued ==> recording)
      && (recording ==> recorder.Some? && (recorder == Some(Recording) <==> !stopQueued))
      && (recorder == Some(Recording) ==> recording && deadline in timers)
      && (mediaStream.Some? <==> recording)
      && live <= Held(mediaStream)
      && (liveVis ==> recording)
    }

    /** The panel's devices are released, or will be as soon as the queued `onstop` runs. */
    ghost predicate Released()
      reads this
    {
      !liveVis && recorder != Some(Recording) && (live == {} || stopQueued)
    }

    /** `initAudio()` up to the first `await` of the model load. */
    constructor ()
      ensures Valid()
      ensures model == None && labels == DefaultClasses && audioCfg == ML.DefaultAudioConfig
      ensures mediaStream == None && live == {} && recorder == None && !recording && !stopQueued && !liveVis
      ensures timers == [] && !controlsDisabled && status == Ui.Loading && prediction == []
    {
      model := None;
      labels := DefaultClasses;
      audioCfg := ML.DefaultAudioConfig;
      mediaStream := None;
      live := {};
      nextStream := 0;
      recorder := None;
      recording := false;
      stopQueued := false;
      liveVis := false;
      timers := [];
      deadline := 0.0;
      controlsDisabled := false;
      status := Ui.Loading;
      prediction := [];
    }

    /**
     * The end of the model load: on success the model is kept, the labels
     * are replaced only by a non-empty list and the configuration always;
     * on failure the status is 'error' and both buttons are disabled.
     */
    method OnLoaded(r: Result<ML.AudioLoaded, ML.LoadError>)
      requires Valid()
      modifies this`model, this`labels, this`audioCfg, this`status, this`controlsDisabled
      ensures Valid()
      ensures r.Ok? ==> && model == Some(r.value.model)
                        && labels == (if |r.value.labels| > 0 then r.value.labels else old(labels))
                        && audioCfg == r.value.audioConfig && status == Ui.Ready
                        && controlsDisabled == old(controlsDisabled)
      ensures r.Err? ==> && status == Ui.Error && controlsDisabled
                         && model == old(model) && labels == old(labels) && audioCfg == old(audioCfg)
    {
      if r.Ok? {
        model := Some(r.value.model);
        if |r.value.labels| > 0 {
          labels := r.value.labels;
        }
        audioCfg := r.value.audioConfig;
        status := Ui.Ready;
      } else {
        status := Ui.Error;
        controlsDisabled := true;
      }
    }

    /** `runInferenceOnBuffer(buffer)` on the first channel of a decoded clip. */
    method RunInferenceOnBuffer(channel: seq<real>, stft: bool, predict: Predictor)
      returns (r: Result<seq<Entry>, InferenceError>)
      ensures r == Inference(model, labels, audioCfg, channel, stft, predict)
    {
      if !stft {
        return Err(NoStft);
      }
      if model.None? {
        return Err(NoModel);
      }
      var numSamples := NumSamples(audioCfg);
      if numSamples < 0 {
        return Err(NegativeLength);
      }
      var resampled := ResampleToFixedLength(channel, numSamples);
      match predict(resampled[..])
      case None =>
        r := Err(PredictFailed);
      case Some(probs) =>
        r := Ok(Rank(labels, probs, DisplayLabels));
    }

    /**
     * `startRecording()`, with the answer to the microphone prompt as
     * `micGranted`: ignored while recording; 'error' without a model;
     * 'denied' when refused; otherwise a stream, the live view, a running
     * recorder, a cleared prediction and an auto-stop timer.
     */
    method StartRecording(now: real, micGranted: bool)
      requires Valid()
      modifies this`mediaStream, this`live, this`nextStream, this`liveVis, this`recorder, this`recording,
               this`timers, this`deadline, this`status, this`prediction
      ensures Valid()
      ensures old(recording) ==> unchanged(this)
      ensures !old(recording) && old(model).None? ==> (status == Ui.Error &&
        unchanged(this`mediaStream, this`live, this`nextStream, this`liveVis, this`recorder, this`recording,
                  this`timers, this`deadline, this`prediction))
      ensures !old(recording) && old(model).Some? && !micGranted ==> (status == Ui.Denied &&
        unchanged(this`mediaStream, this`live, this`nextStream, this`liveVis, this`recorder, this`recording,
                  this`timers, this`deadline, this`prediction))
      ensures !old(recording) && old(model).Some? && micGranted ==>
        && mediaStream == Some(old(nextStream)) && live == old(live) + {old(nextStream)}
        && nextStream == old(nextStream) + 1
        && liveVis && recorder == Some(Recording) && recording
        && status == Ui.Recording && prediction == []
        && timers == old(timers) + [now + AutoStopDelay(audioCfg)] && deadline == now + AutoStopDelay(audioCfg)
    {
      if recording {
        return;
      }
      if model.None? {
        status := Ui.Error;
        return;
      }
      if !micGranted {
        status := Ui.Denied;
        return;
      }
      Begin(now + AutoStopDelay(audioCfg));
    }

    /** The part of `startRecording` after the microphone stream is obtained. */
    method Begin(due: real)
      requires Valid() && !recording
      modifies this`mediaStream, this`live, this`nextStream, this`liveVis, this`recorder, this`recording,
               this`timers, this`deadline, this`status, this`prediction
      ensures Valid()
      ensures mediaStream == Some(old(nextStream)) && live == old(live) + {old(nextStream)}
      ensures nextStream == old(nextStream) + 1
      ensures liveVis && recorder == Some(Recording) && recording
      ensures status == Ui.Recording && prediction == [] && timers == old(timers) + [due] && deadline == due
    {
      OpenStream();
      StartRecorder(due);
      status := Ui.Recording;
      prediction := [];
      assert timers[|timers| - 1] == deadline;
    }

    /** `getUserMedia` resolves: the panel holds a new, live stream. */
    method OpenStream()
      modifies this`mediaStream, this`live, this`nextStream
      ensures mediaStream == Some(old(nextStream)) && live == old(live) + {old(nextStream)}
      ensures nextStream == old(nextStream) + 1
    {
      mediaStream := Some(nextStream);
      live := live + {nextStream};
      nextStream := nextStream + 1;
    }

    /** The live view starts, a recorder is started on the stream and the auto-stop timer is set. */
    method StartRecorder(due: real)
      modifies this`liveVis, this`recorder, this`recording, this`timers, this`deadline
      ensures liveVis && recorder == Some(Recording) && recording
      ensures timers == old(timers) + [due] && deadline == due
    {
      liveVis := true;
      recorder := Some(Recording);
      recording := true;
      timers := timers + [due];
      deadline := due;
    }

    /** `stopRecording()`: stops the recorder only while it is recording; `onstop` is then queued. */
    method StopRecording()
      requires Valid()
      modifies this`status, this`recorder, this`stopQueued
      ensures Valid()
      ensures old(recorder) == Some(Recording) && old(recording) ==>
        status == Ui.Processing && recorder == Some(Inactive) && stopQueued
      ensures !(old(recorder) == Some(Recording) && old(recording)) ==> unchanged(this)
    {
      if recorder.Some? && recording && recorder.value == Recording {
        status := Ui.Processing;
        recorder := Some(Inactive);
        stopQueued := true;
      }
    }

    /**
     * The auto-stop timer due at `timers[k]` fires. Timers are never
     * cancelled, so one set by an earlier recording can stop a later one.
     */
    method AutoStopFires(k: nat)
      requires Valid() && k < |timers|
      modifies this`timers, this`status, this`recorder, this`stopQueued
      ensures Valid()
      ensures timers == RemoveAt(old(timers), k)
      ensures old(recording) && old(recorder) == Some(Recording) ==>
        status == Ui.Processing && recorder == Some(Inactive) && stopQueued
      ensures !(old(recording) && old(recorder) == Some(Recording)) ==>
        unchanged(this`status, this`recorder, this`stopQueued)
    {
      timers := RemoveAt(timers, k);
      if recording && recorder == Some(Recording) {
        status := Ui.Processing;
        recorder := Some(Inactive);
        stopQueued := true;
      }
    }

    /**
     * `mediaRecorder.onstop`: classifies the recording (`decoded` is its first
     * channel, None when decoding failed), then, whatever happened, stops the
     * stream's tracks, drops the stream and clears `recording`.
     */
    method OnStop(decoded: Option<seq<real>>, stft: bool, predict: Predictor)
      requires Valid() && stopQueued
      modifies this`status, this`prediction, this`stopQueued, this`liveVis, this`mediaStream, this`live, this`recording
      ensures Valid()
      ensures var outcome := ClipInference(model, labels, audioCfg, decoded, stft, predict);
        && status == (if outcome.Ok? then Ui.Ready else Ui.Error)
        && prediction == (if outcome.Ok? then outcome.value else old(prediction))
      ensures !stopQueued && !liveVis && !recording
      ensures mediaStream == None && live == old(live) - Held(old(mediaStream)) && live == {}
    {
      Classify(decoded, stft, predict);
      Finish();
    }

    /** `stopLiveVis()` and the `finally` of `onstop`: the stream's tracks are stopped and the stream dropped. */
    method Finish()
      modifies this`stopQueued, this`liveVis, this`mediaStream, this`live, this`recording
      ensures !stopQueued && !liveVis && !recording
      ensures mediaStream == None && live == old(live) - Held(old(mediaStream))
    {
      stopQueued := false;
      liveVis := false;
      if mediaStream.Some? {
        live := live - {mediaStream.value};
      }
      mediaStream := None;
      recording := false;
    }

    /** Decodes and classifies a clip, then publishes the ranking with 'ready', or sets 'error'. */
    method Classify(decoded: Option<seq<real>>, stft: bool, predict: Predictor)
      modifies this`status, this`prediction
      ensures var outcome := ClipInference(model, labels, audioCfg, decoded, stft, predict);
        && status == (if outcome.Ok? then Ui.Ready else Ui.Error)
        && prediction == (if outcome.Ok? then outcome.value else old(prediction))
    {
      var outcome: Result<seq<Entry>, InferenceError>;
      if decoded.None? {
        outcome := Err(DecodeFailed);
      } else {
        outcome := RunInferenceOnBuffer(decoded.value, stft, predict);
      }
      if outcome.Ok? {
        prediction := outcome.value;
        status := Ui.Ready;
      } else {
        status := Ui.Error;
      }
    }

    /** The upload handler: ignored without a file or a model; otherwise one inference on the decoded file. */
    method Upload(hasFile: bool, decoded: Option<seq<real>>, stft: bool, predict: Predictor)
      requires Valid()
      modifies this`status, this`prediction
      ensures Valid()
      ensures !hasFile || model.None? ==> unchanged(this)
      ensures hasFile && model.Some? ==>
        var outcome := ClipInference(model, labels, audioCfg, decoded, stft, predict);
        && status == (if outcome.Ok? then Ui.Ready else Ui.Error)
        && prediction == (if outcome.Ok? then outcome.value else [])
    {
      if !hasFile || model.None? {
        return;
      }
      status := Ui.Processing;
      prediction := [];
      Classify(decoded, stft, predict);
    }

    /** The cleanup `initAudio` returns: `stopRecording()` and `stopLiveVis()`. */
    method Teardown()
      requires Valid()
      modifies this`status, this`recorder, this`stopQueued, this`liveVis
      ensures Valid() && Released()
      ensures old(recorder) == Some(Recording) && old(recording) ==>
        status == Ui.Processing && recorder == Some(Inactive) && stopQueued
      ensures !(old(recorder) == Some(Recording) && old(recording)) ==>
        unchanged(this`status, this`recorder, this`stopQueued)
      ensures !liveVis
    {
      StopRecording();
      liveVis := false;
    }
  }

  /** The inference on a decoded clip, or `DecodeFailed` when decoding failed. */
  function ClipInference(model: Option<ML.Handle>, labels: seq<string>, cfg: ML.AudioConfig, decoded: Option<seq<real>>,
                         stft: bool, predict: Predictor): (r: Result<seq<Entry>, InferenceError>)
    ensures decoded.None? ==> r == Err(DecodeFailed)
    ensures r.Ok? <==> (decoded.Some? && stft && model.Some? && NumSamples(cfg) >= 0 &&
      predict(Resampled(decoded.value, NumSamples(cfg) as nat)).Some?)
    ensures r.Ok? ==> (NonIncreasing(r.value) &&
      r.value == Rank(labels, predict(Resampled(decoded.value, NumSamples(cfg) as nat)).value, DisplayLabels))
  {
    if decoded.None? then Err(DecodeFailed) else Inference(model, labels, cfg, decoded.value, stft, predict)
  }
}
