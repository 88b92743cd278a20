/**
 * The Instagram content script (extension/content-instagram.js): a receiver that
 * pauses or plays the page's videos on command and covers the page with an overlay
 * while paused.
 */
module ContentInstagram {
  import opened Wrappers

  /** The overlay element: its `style.display` and whether it is attached to the body. */
  class Overlay {
    var display: string
    var attached: bool

    constructor ()
      ensures display == "" && !attached
    {
      display := "";
      attached := false;
    }
  }

  datatype Action = Pause | Play

  /** One `video.pause()` or `video.play()` call, on the video at `index`. */
  datatype VideoCall = VideoCall(action: Action, index: nat)

  /**
   * The calls a pass over the first `n` videos makes (true meaning the video is
   * paused): pause targets exactly the playing videos, play exactly the paused
   * ones, in document order.
   */
  function CallsOn(paused: seq<bool>, n: nat, action: Action): (calls: seq<VideoCall>)
    requires n <= |paused|
    ensures |calls| <= n
    ensures forall c :: c in calls <==>
      c.action == action && c.index < n && paused[c.index] == (action == Play)
    ensures forall i, j :: 0 <= i < j < |calls| ==> calls[i].index < calls[j].index
  {
    if n == 0 then []
    else
      CallsOn(paused, n - 1, action) +
      (if paused[n - 1] == (action == Play) then [VideoCall(action, n - 1)] else [])
  }

  /** A pass over videos that are all in the target state calls nothing. */
  lemma {:induction false} SettledVideosGetNoCalls(paused: seq<bool>, n: nat, action: Action)
    requires n <= |paused|
    requires forall i :: 0 <= i < n ==> paused[i] == (action == Pause)
    ensures CallsOn(paused, n, action) == []
  {
    if n > 0 {
      SettledVideosGetNoCalls(paused, n - 1, action);
    }
  }

  /** The reply to a pause or play message. */
  datatype Response = Response(success: bool, paused: bool)

  class ReelController {
    var isPaused: bool
    var overlay: Overlay?
    /** The pause and play calls made on videos, in order. */
    var calls: seq<VideoCall>

    /** While paused, the overlay exists, is attached and is shown. */
    ghost predicate Valid()
      reads this, overlay
    {
      isPaused ==> overlay != null && overlay.attached && overlay.display == "block"
    }

    /** Script start: not paused, no overlay yet. */
    constructor ()
      ensures Valid() && !isPaused && overlay == null && calls == []
    {
      isPaused := false;
      overlay := null;
      calls := [];
    }

    /** createOverlay: built once, then the same element every time. */
    method CreateOverlay() returns (ov: Overlay)
      modifies this
      ensures ov == overlay
      ensures old(overlay) != null ==> ov == old(overlay)
      ensures old(overlay) == null ==> fresh(ov) && ov.display == "" && !ov.attached
      ensures isPaused == old(isPaused) && calls == old(calls)
    {
      if overlay != null {
        return overlay;
      }
      ov := new Overlay();
      overlay := ov;
    }

    /**
     * pauseReel: every playing video is paused, already-paused ones are left alone.
     * With at least one video the controller is paused and its overlay shown; with
     * none, nothing but the (empty) pass happens.
     */
    method PauseReel(videos: array<bool>)
      requires Valid()
      modifies this, overlay, videos
      ensures Valid()
      ensures forall i :: 0 <= i < videos.Length ==> videos[i]
      ensures calls == old(calls) + CallsOn(old(videos[..]), videos.Length, Pause)
      ensures isPaused == (old(isPaused) || videos.Length > 0)
      ensures videos.Length > 0 ==> overlay != null && overlay.attached && overlay.display == "block"
      ensures old(overlay) != null ==> overlay == old(overlay)
      ensures old(overlay) == null && overlay != null ==> fresh(overlay)
      ensures videos.Length == 0 ==> overlay == old(overlay)
      ensures videos.Length == 0 && overlay != null ==>
        overlay.attached == old(overlay.attached) && overlay.display == old(overlay.display)
    {
      var i := 0;
      while i < videos.Length
        invariant 0 <= i <= videos.Length
        invariant forall j :: 0 <= j < i ==> videos[j]
        invariant forall j :: i <= j < videos.Length ==> videos[j] == old(videos[j])
        invariant calls == old(calls) + CallsOn(old(videos[..]), i, Pause)
        invariant isPaused == old(isPaused) && overlay == old(overlay)
        invariant overlay != null ==> overlay.attached == old(overlay.attached) && overlay.display == old(overlay.display)
      {
        if !videos[i] {
          videos[i] := true;
          calls := calls + [VideoCall(Pause, i)];
        }
        i := i + 1;
      }
      if videos.Length > 0 {
        isPaused := true;
        var ov := CreateOverlay();
        if !ov.attached {
          ov.attached := true;
        }
        ov.display := "block";
      }
    }

    /**
     * playReel: the overlay is hidden, play is called on exactly the paused videos
     * (taking effect only where autoplay is allowed), and the controller is playing
     * whatever happened.
     */
    method PlayReel(videos: array<bool>, autoplayAllowed: bool)
      modifies this, overlay, videos
      ensures Valid() && !isPaused
      ensures calls == old(calls) + CallsOn(old(videos[..]), videos.Length, Play)
      ensures autoplayAllowed ==> forall i :: 0 <= i < videos.Length ==> !videos[i]
      ensures !autoplayAllowed ==> videos[..] == old(videos[..])
      ensures overlay == old(overlay)
      ensures overlay != null ==> overlay.display == "none" && overlay.attached == old(overlay.attached)
    {
      if overlay != null {
        overlay.display := "none";
      }
      var i := 0;
      while i < videos.Length
        invariant 0 <= i <= videos.Length
        invariant forall j :: 0 <= j < videos.Length ==> videos[j] == (old(videos[j]) && !(autoplayAllowed && j < i))
        invariant calls == old(calls) + CallsOn(old(videos[..]), i, Play)
        invariant overlay == old(overlay)
        invariant overlay != null ==> overlay.display == "none" && overlay.attached == old(overlay.attached)
      {
        if videos[i] {
          calls := calls + [VideoCall(Play, i)];
          if autoplayAllowed {
            videos[i] := false;
          }
        }
        i := i + 1;
      }
      isPaused := false;
    }

    /**
     * The message listener: PAUSE_REELS and PLAY_REELS are answered with success and
     * the paused flag after the operation; other messages get no answer.
     */
    method OnMessage(kind: string, videos: array<bool>, autoplayAllowed: bool) returns (response: Option<Response>)
      requires Valid()
      modifies this, overlay, videos
      ensures Valid()
      ensures kind == "PAUSE_REELS" ==>
        isPaused == (old(isPaused) || videos.Length > 0) && response == Some(Response(true, isPaused))
      ensures kind == "PAUSE_REELS" ==>
        calls == old(calls) + CallsOn(old(videos[..]), videos.Length, Pause) &&
        forall i :: 0 <= i < videos.Length ==> videos[i]
      ensures kind == "PLAY_REELS" ==> !isPaused && response == Some(Response(true, false))
      ensures kind == "PLAY_REELS" ==>
        calls == old(calls) + CallsOn(old(videos[..]), videos.Length, Play) &&
        overlay == old(overlay) && (overlay != null ==> overlay.display == "none")
      ensures kind != "PAUSE_REELS" && kind != "PLAY_REELS" ==>
        response.None? && unchanged(this, videos) && (overlay != null ==> unchanged(overlay))
    {
      response := None;
      if kind == "PAUSE_REELS" {
        PauseReel(videos);
        response := Some(Response(true, isPaused));
      }
      if kind == "PLAY_REELS" {
        PlayReel(videos, autoplayAllowed);
        response := Some(Response(true, isPaused));
      }
    }

    /** A `play` event on an observed video (the user resumed it): overlay hidden, not paused. */
    method OnVideoPlay()
      modifies this, overlay
      ensures Valid() && !isPaused
      ensures overlay == old(overlay) && calls == old(calls)
      ensures overlay != null ==> overlay.display == "none" && overlay.attached == old(overlay.attached)
    {
      if overlay != null {
        overlay.display := "none";
      }
      isPaused := false;
    }
  }

  /** The page's window, which remembers that the script already ran. */
  class InstagramWindow {
    var reelsMaxInitialized: bool
    /** How many controllers the script has started in this window. */
    var controllers: nat

    /** At most one controller per window, and one exactly when the flag is set. */
    ghost predicate Valid()
      reads this
    {
      controllers == (if reelsMaxInitialized then 1 else 0)
    }

    /** A fresh page: the script has not run. */
    constructor ()
      ensures Valid() && !reelsMaxInitialized && controllers == 0
    {
      reelsMaxInitialized := false;
      controllers := 0;
    }

    /** The script runs once per injection; only the first run in a window starts a controller. */
    method RunScript() returns (controller: Option<ReelController>)
      requires Valid()
      modifies this
      ensures Valid() && reelsMaxInitialized && controllers == 1
      ensures old(reelsMaxInitialized) ==> controller.None? && controllers == old(controllers)
      ensures !old(reelsMaxInitialized) ==>
        controller.Some? && fresh(controller.value) && controller.value.Valid() &&
        !controller.value.isPaused && controllers == old(controllers) + 1
    {
      if reelsMaxInitialized {
        return None;
      }
      reelsMaxInitialized := true;
      controllers := controllers + 1;
      var c := new ReelController();
      controller := Some(c);
    }
  }
}
