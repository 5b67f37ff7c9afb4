/**
 * The hero section's background video (src/components/HeroSection.tsx):
 * play/pause, mute and hide controls, the handling of a refused autoplay, and
 * the detection of whether the video has an audio track (which decides whether
 * the mute control is offered). The `<video>` element is rendered only while
 * the video is not hidden, so the element reference is empty exactly then.
 * Calls on the element are recorded in a command log.
 */
module HeroSection {
  import opened Wrappers

  /** What the component does to the `<video>` element. */
  datatype VideoCommand = Play | Pause | SetMuted(muted: bool)

  /**
   * Outcome of the muted test playback in the last branch of `checkAudio`:
   * `play()` returned no promise, the promise resolved (with the element's
   * `paused` flag read afterwards), or it was rejected.
   */
  datatype ProbeOutcome = NoPromise | Resolved(pausedAfter: bool) | Rejected

  /**
   * The value `checkAudio` gives `hasAudio`, or `None` when it sets nothing.
   * `mozHasAudio` and `webkitAudioDecodedByteCount` are `None` when the browser
   * does not define them.
   */
  function DetectAudio(mozHasAudio: Option<bool>, webkitDecodedBytes: Option<int>, probe: ProbeOutcome): (r: Option<bool>)
    // Something is decided unless every check is unavailable.
    ensures r.None? <==> mozHasAudio.None? && webkitDecodedBytes.None? && probe.NoPromise?
    // A test playback that succeeded reports audio exactly when the element kept playing.
    ensures mozHasAudio.None? && webkitDecodedBytes.None? && probe.Resolved? ==> r == Some(!probe.pausedAfter)
    // Audio is reported only when one of the three sources says so.
    ensures r == Some(true) ==>
      || mozHasAudio == Some(true)
      || (mozHasAudio.None? && webkitDecodedBytes.Some? && webkitDecodedBytes.value > 0)
      || (mozHasAudio.None? && webkitDecodedBytes.None? && probe == Resolved(false))
  {
    if mozHasAudio.Some? then Some(mozHasAudio.value)
    else if webkitDecodedBytes.Some? then Some(webkitDecodedBytes.value > 0)
    else match probe
      case NoPromise => None
      case Resolved(pausedAfter) => Some(!pausedAfter)
      case Rejected => Some(false)
  }

  /**
   * The order of the checks: a defined `mozHasAudio` decides alone; otherwise a
   * defined WebKit byte count decides alone; only when both are undefined does
   * the test playback decide, and a refused test playback means "no audio".
   */
  lemma DetectAudioOrder(moz: bool, bytes: int, webkit: Option<int>, probe: ProbeOutcome, otherProbe: ProbeOutcome, pausedAfter: bool)
    ensures DetectAudio(Some(moz), webkit, probe) == Some(moz)
    ensures DetectAudio(None, Some(bytes), probe) == DetectAudio(None, Some(bytes), otherProbe)
    ensures DetectAudio(None, Some(bytes), probe) == Some(bytes > 0)
    ensures DetectAudio(None, None, Rejected) == Some(false)
    ensures DetectAudio(None, None, Resolved(pausedAfter)) == Some(!pausedAfter)
    ensures DetectAudio(None, None, probe) == None <==> probe == NoPromise
  {
  }

  class Hero {
    var isPlaying: bool
    var isMuted: bool
    var hasAudio: bool
    var isVideoHidden: bool
    /** Every call made on the `<video>` element, oldest first. */
    var videoLog: seq<VideoCommand>

    /** The element reference is set exactly while the video is rendered. */
    predicate HasVideoElement()
      reads this
    {
      !isVideoHidden
    }

    /** The pause icon (rather than the play icon) is shown. */
    predicate ShowsPauseIcon()
      reads this
    {
      isPlaying && !isVideoHidden
    }

    /** The mute button is rendered. */
    predicate ShowsMuteControl()
      reads this
    {
      hasAudio
    }

    /**
     * Mount: the initial state, then the mount effect asks the video to play.
     * The outcome of that request arrives later as `AutoplayRejected`.
     */
    constructor ()
      ensures isPlaying && isMuted && !hasAudio && !isVideoHidden
      ensures videoLog == [Play]
    {
      isPlaying := true;
      isMuted := true;
      hasAudio := false;
      isVideoHidden := false;
      videoLog := [Play];
    }

    /** The initial play request was refused by the browser. */
    method AutoplayRejected()
      modifies this`isPlaying
      ensures !isPlaying && !ShowsPauseIcon()
    {
      isPlaying := false;
    }

    /** `togglePlayPause`: only with a rendered video; pause if playing, else play, then flip. */
    method TogglePlayPause()
      modifies this`isPlaying, this`videoLog
      ensures !HasVideoElement() ==> isPlaying == old(isPlaying) && videoLog == old(videoLog)
      ensures HasVideoElement() ==> isPlaying == !old(isPlaying)
      ensures HasVideoElement() ==> ShowsPauseIcon() == !old(isPlaying)
      ensures HasVideoElement() ==> videoLog == old(videoLog) + [if old(isPlaying) then Pause else Play]
    {
      if HasVideoElement() {
        videoLog := videoLog + [if isPlaying then Pause else Play];
        isPlaying := !isPlaying;
      }
    }

    /** `toggleMute`: with a rendered video, set its `muted` to the flipped value and flip the state. */
    method ToggleMute()
      modifies this`isMuted, this`videoLog
      ensures !HasVideoElement() ==> isMuted == old(isMuted) && videoLog == old(videoLog)
      ensures HasVideoElement() ==> isMuted == !old(isMuted)
      ensures HasVideoElement() ==> videoLog == old(videoLog) + [SetMuted(isMuted)]
    {
      if HasVideoElement() {
        videoLog := videoLog + [SetMuted(!isMuted)];
        isMuted := !isMuted;
      }
    }

    /** `toggleVideoVisibility`: flip; hiding also marks the video as playing, showing leaves that alone. */
    method ToggleVideoVisibility()
      modifies this`isVideoHidden, this`isPlaying
      ensures isVideoHidden == !old(isVideoHidden)
      ensures isVideoHidden ==> isPlaying && !ShowsPauseIcon()
      ensures !isVideoHidden ==> isPlaying == old(isPlaying)
    {
      var wasHidden := isVideoHidden;
      isVideoHidden := !wasHidden;
      if !wasHidden {
        isPlaying := true;
      }
    }

    /**
     * The `loadedmetadata` listener `checkAudio`, with the browser's answers as
     * parameters. In its last branch it mutes the element and starts a test
     * playback, pausing again if that succeeds.
     */
    method CheckAudio(mozHasAudio: Option<bool>, webkitDecodedBytes: Option<int>, probe: ProbeOutcome)
      modifies this`hasAudio, this`videoLog
      ensures DetectAudio(mozHasAudio, webkitDecodedBytes, probe).Some? ==>
        hasAudio == DetectAudio(mozHasAudio, webkitDecodedBytes, probe).value
      ensures DetectAudio(mozHasAudio, webkitDecodedBytes, probe).None? ==> hasAudio == old(hasAudio)
      ensures ShowsMuteControl() ==> old(ShowsMuteControl()) || DetectAudio(mozHasAudio, webkitDecodedBytes, probe) == Some(true)
      ensures mozHasAudio.Some? || webkitDecodedBytes.Some? ==> videoLog == old(videoLog)
      ensures mozHasAudio.None? && webkitDecodedBytes.None? ==>
        videoLog == old(videoLog) + [SetMuted(true), Play] + (if probe.Resolved? then [Pause] else [])
      ensures isMuted == old(isMuted) && isPlaying == old(isPlaying)
    {
      if mozHasAudio.Some? {
        hasAudio := mozHasAudio.value;
      } else if webkitDecodedBytes.Some? {
        hasAudio := webkitDecodedBytes.value > 0;
      } else {
        videoLog := videoLog + [SetMuted(true), Play];
        match probe
        case NoPromise =>
        case Resolved(pausedAfter) =>
          hasAudio := !pausedAfter;
          videoLog := videoLog + [Pause];
        case Rejected =>
          hasAudio := false;
      }
    }
  }
}
