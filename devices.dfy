/**
 * What the panels hold of the browser's media devices and canvases.
 * A stream returned by `getUserMedia` is identified by a number; the set of
 * streams whose tracks are still live is kept by each panel, so that
 * "every track is stopped" becomes a statement about that set.
 */
module Devices {
  import opened Wrappers

  type StreamId = nat

  /** The streams a `stream` variable holds: none when it is `null`. */
  function Held(stream: Option<StreamId>): (s: set<StreamId>)
    ensures stream.None? <==> s == {}
    ensures forall id :: id in s <==> stream == Some(id)
  {
    if stream.Some? then {stream.value} else {}
  }

  /**
   * How an attempt to start a camera ends: the permission is refused
   * (`getUserMedia` rejects), the stream is obtained but `video.play()`
   * rejects, or the video plays.
   */
  datatype CameraOutcome = Denied | PlayFailed | Granted

  /** What a panel's canvas shows: nothing yet, a video frame drawn at a time, or an uploaded picture. */
  datatype Canvas = Blank | VideoFrame(at: real) | Picture(file: nat)
}
