/**
 * The plain Electron renderer (desktop-app/renderer.js): it polls the LLM webview
 * every 300 ms and pauses or plays the videos of the reels webview on a change of
 * the generation signal. Unlike App.tsx it starts with the reels playing.
 */
module Renderer {
  import opened Wrappers
  import opened Registry
  import opened Debouncer
  import opened Desktop

  datatype SocialPlatform = SocialPlatform(key: string, name: string, url: string)

  const SocialPlatforms: seq<SocialPlatform> := [
    SocialPlatform("instagram", "Instagram Reels", "https://www.instagram.com/reels/"),
    SocialPlatform("tiktok", "TikTok", "https://www.tiktok.com/foryou"),
    SocialPlatform("youtube", "YouTube Shorts", "https://www.youtube.com/shorts"),
    SocialPlatform("twitter", "X (Twitter)", "https://x.com/home"),
    SocialPlatform("reddit", "Reddit", "https://www.reddit.com"),
    SocialPlatform("snapchat", "Snapchat Spotlight", "https://www.snapchat.com/spotlight"),
    SocialPlatform("facebook", "Facebook Reels", "https://www.facebook.com/reel/")
  ]

  /** `SOCIAL_PLATFORMS[key]`: the platform stored under exactly that key. */
  function PlatformFor(key: string): (p: Option<SocialPlatform>)
    ensures p.Some? ==> p.value in SocialPlatforms && p.value.key == key
    ensures p.None? ==> forall i :: 0 <= i < |SocialPlatforms| ==> SocialPlatforms[i].key != key
  {
    PlatformIn(SocialPlatforms, key)
  }

  function PlatformIn(platforms: seq<SocialPlatform>, key: string): (p: Option<SocialPlatform>)
    ensures p.Some? ==> p.value in platforms && p.value.key == key
    ensures p.None? ==> forall i :: 0 <= i < |platforms| ==> platforms[i].key != key
  {
    if platforms == [] then None
    else if platforms[0].key == key then Some(platforms[0])
    else PlatformIn(platforms[1..], key)
  }

  /** The address getCurrentLLM matches: the LLM view's src, or the selector's value when src is empty. */
  function LlmUrl(viewSrc: string, selectorValue: string): (url: string)
    ensures url == "" <==> viewSrc == "" && selectorValue == ""
    ensures url == viewSrc || url == selectorValue
  {
    if viewSrc != "" then viewSrc else selectorValue
  }

  /** getCurrentLLM: never fails; an address no domain matches gets the chatgpt.com configuration. */
  method GetCurrentLLM(viewSrc: string, selectorValue: string) returns (config: LlmConfig)
    ensures config == ConfigFor(LlmUrl(viewSrc, selectorValue))
  {
    config := LookupConfig(LlmUrl(viewSrc, selectorValue));
  }

  /** checkGenerating: the probe script's answer, or false when the evaluation fails. */
  method CheckGenerating(viewSrc: string, selectorValue: string, evaluation: Evaluation) returns (generating: bool)
    ensures generating == ProbeResult(ConfigFor(LlmUrl(viewSrc, selectorValue)), evaluation)
  {
    var llm := GetCurrentLLM(viewSrc, selectorValue);
    match evaluation {
      case EvaluationFails =>
        generating := false;
      case Evaluated(doc) =>
        generating := RunProbeScript(llm.generating, doc);
    }
  }

  /** The LLM selector's label: the name of the first domain the chosen address includes, else "Chat". */
  function LabelFor(url: string): (name: string)
    ensures forall k :: IsFirstMatch(LlmSelectors, url, k) ==> name == LlmSelectors[k].value.name
    ensures NoMatch(LlmSelectors, url) ==> name == "Chat"
  {
    match FirstMatch(LlmSelectors, url)
    case Some(k) => LlmSelectors[k].value.name
    case None => "Chat"
  }

  const MinWidth := 320
  const MaxWidth := 600

  /**
   * From the initial state (idle, playing) the first change of the signal is a start,
   * which finds the reels already playing and issues nothing; from then on every
   * change issues one command, alternating pause and play.
   */
  lemma {:induction false} InitialRunSkipsFirstEdge(samples: seq<bool>)
    ensures RunCommands(Playback(false, false), samples) ==
      (var all := CommandsFor(Edges(false, samples)); if all == [] then [] else all[1..])
    ensures |RunCommands(Playback(false, false), samples)| ==
      (if Changes(false, samples) == 0 then 0 else Changes(false, samples) - 1)
    decreases |samples|
  {
    EdgesCountChanges(false, samples);
    if samples != [] {
      if samples[0] {
        var next := TickState(Playback(false, false), true);
        assert next == Playback(true, false);
        SyncedRunFollowsEdges(next, samples[1..]);
        assert Edges(false, samples) == [Started] + Edges(true, samples[1..]);
        assert CommandsFor(Edges(false, samples))[1..] == CommandsFor(Edges(true, samples[1..]));
      } else {
        InitialRunSkipsFirstEdge(samples[1..]);
        assert Edges(false, samples) == Edges(false, samples[1..]);
      }
    }
  }

  class RendererWindow {
    var wasGenerating: bool
    var isPaused: bool
    /** checkInterval has been set. */
    var monitoring: bool
    var overlayVisible: bool
    var statusText: string
    /** The scripts executed on the reels webview, in order. */
    var commands: seq<Sent>
    var llmSrc: string
    var llmSelectorValue: string
    var llmLabel: string
    var reelsSrc: string
    var isResizing: bool
    var startX: int
    var startWidth: int
    var panelWidth: int

    /** Between ticks the reels are never left paused while generation was last seen. */
    ghost predicate Valid()
      reads this
    {
      NeverPausedWhileGenerating(Playback(wasGenerating, isPaused))
    }

    /**
     * Script load: idle, not paused, not monitoring, not resizing. The webviews'
     * addresses, the selector's value, the status text, the overlay and the panel
     * width come from the page's markup.
     */
    constructor (llmSrc0: string, llmSelectorValue0: string, reelsSrc0: string, llmLabel0: string,
                 statusText0: string, overlayVisible0: bool, panelWidth0: int)
      ensures Valid()
      ensures !wasGenerating && !isPaused && !monitoring && commands == []
      ensures !isResizing && startX == 0 && startWidth == 0
      ensures llmSrc == llmSrc0 && llmSelectorValue == llmSelectorValue0 && reelsSrc == reelsSrc0
      ensures llmLabel == llmLabel0 && statusText == statusText0 && overlayVisible == overlayVisible0
      ensures panelWidth == panelWidth0
    {
      wasGenerating, isPaused, monitoring := false, false, false;
      commands := [];
      isResizing, startX, startWidth := false, 0, 0;
      llmSrc, llmSelectorValue, reelsSrc := llmSrc0, llmSelectorValue0, reelsSrc0;
      llmLabel, statusText, overlayVisible := llmLabel0, statusText0, overlayVisible0;
      panelWidth := panelWidth0;
    }

    /**
     * pauseReels: a no-op when already paused; otherwise the flag is set before the
     * pause script is sent, and stays set whether or not the script succeeds.
     */
    method PauseReels(delivered: bool)
      modifies this
      ensures isPaused
      ensures old(isPaused) ==> commands == old(commands) && overlayVisible == old(overlayVisible) && statusText == old(statusText)
      ensures !old(isPaused) ==> commands == old(commands) + [Sent(PauseVideos, delivered)]
      ensures !old(isPaused) ==> overlayVisible && statusText == "Paused - Response ready!"
      ensures wasGenerating == old(wasGenerating) && monitoring == old(monitoring)
      ensures llmSrc == old(llmSrc) && llmSelectorValue == old(llmSelectorValue) && llmLabel == old(llmLabel)
      ensures reelsSrc == old(reelsSrc) && isResizing == old(isResizing) && startX == old(startX)
      ensures startWidth == old(startWidth) && panelWidth == old(panelWidth)
    {
      if isPaused {
        return;
      }
      isPaused := true;
      overlayVisible := true;
      statusText := "Paused - Response ready!";
      commands := commands + [Sent(PauseVideos, delivered)];
    }

    /** playReels: a no-op when not paused; otherwise the flag is cleared whatever the play script's fate. */
    method PlayReels(delivered: bool)
      modifies this
      ensures !isPaused
      ensures !old(isPaused) ==> commands == old(commands) && overlayVisible == old(overlayVisible) && statusText == old(statusText)
      ensures old(isPaused) ==> commands == old(commands) + [Sent(PlayVideos, delivered)]
      ensures old(isPaused) ==> !overlayVisible && statusText == "Playing"
      ensures wasGenerating == old(wasGenerating) && monitoring == old(monitoring)
      ensures llmSrc == old(llmSrc) && llmSelectorValue == old(llmSelectorValue) && llmLabel == old(llmLabel)
      ensures reelsSrc == old(reelsSrc) && isResizing == old(isResizing) && startX == old(startX)
      ensures startWidth == old(startWidth) && panelWidth == old(panelWidth)
    {
      if !isPaused {
        return;
      }
      isPaused := false;
      overlayVisible := false;
      statusText := "Playing";
      commands := commands + [Sent(PlayVideos, delivered)];
    }

    /** startMonitoring: a no-op once the interval exists. */
    method StartMonitoring()
      modifies this
      ensures monitoring
      ensures old(monitoring) ==> unchanged(this)
      ensures wasGenerating == old(wasGenerating) && isPaused == old(isPaused) && commands == old(commands)
      ensures overlayVisible == old(overlayVisible) && statusText == old(statusText)
      ensures llmSrc == old(llmSrc) && llmSelectorValue == old(llmSelectorValue) && llmLabel == old(llmLabel)
      ensures reelsSrc == old(reelsSrc) && isResizing == old(isResizing) && startX == old(startX)
      ensures startWidth == old(startWidth) && panelWidth == old(panelWidth)
    {
      if monitoring {
        return;
      }
      monitoring := true;
    }

    /** The LLM webview's dom-ready event starts monitoring. */
    method OnLlmViewReady()
      modifies this
      ensures monitoring
      ensures old(monitoring) ==> unchanged(this)
      ensures wasGenerating == old(wasGenerating) && isPaused == old(isPaused) && commands == old(commands)
      ensures overlayVisible == old(overlayVisible) && statusText == old(statusText)
      ensures llmSrc == old(llmSrc) && llmSelectorValue == old(llmSelectorValue) && llmLabel == old(llmLabel)
      ensures reelsSrc == old(reelsSrc) && isResizing == old(isResizing) && startX == old(startX)
      ensures startWidth == old(startWidth) && panelWidth == old(panelWidth)
    {
      StartMonitoring();
    }

    /** The reels webview's dom-ready event only updates the status text. */
    method OnReelsViewReady()
      modifies this
      ensures statusText == "Ready - Start chatting!"
      ensures wasGenerating == old(wasGenerating) && isPaused == old(isPaused) && commands == old(commands)
      ensures monitoring == old(monitoring) && overlayVisible == old(overlayVisible)
      ensures llmSrc == old(llmSrc) && llmSelectorValue == old(llmSelectorValue) && llmLabel == old(llmLabel)
      ensures reelsSrc == old(reelsSrc) && isResizing == old(isResizing) && startX == old(startX)
      ensures startWidth == old(startWidth) && panelWidth == old(panelWidth)
    {
      statusText := "Ready - Start chatting!";
    }

    /**
     * One interval tick (the interval fires only once monitoring has started). The
     * sample is remembered unconditionally; play is sent only on a false-to-true
     * change while paused, pause only on a true-to-false change while playing, so
     * repeated samples send nothing.
     */
    method Tick(evaluation: Evaluation, delivered: bool)
      requires Valid()
      modifies this
      ensures Valid()
      ensures !old(monitoring) ==> unchanged(this)
      ensures old(monitoring) ==>
        var g := ProbeResult(ConfigFor(LlmUrl(llmSrc, llmSelectorValue)), evaluation);
        var before := Playback(old(wasGenerating), old(isPaused));
        && Playback(wasGenerating, isPaused) == TickState(before, g)
        && commands == old(commands) + (match TickCommand(before, g) case Some(c) => [Sent(c, delivered)] case None => [])
        && overlayVisible == (match TickCommand(before, g) case Some(c) => c == PauseVideos case None => old(overlayVisible))
        && statusText == (
             if !before.wasGenerating && g then (if before.isPaused then "Playing" else "AI generating...")
             else if TickCommand(before, g) == Some(PauseVideos) then "Paused - Response ready!"
             else old(statusText))
      ensures monitoring == old(monitoring)
      ensures llmSrc == old(llmSrc) && llmSelectorValue == old(llmSelectorValue) && llmLabel == old(llmLabel)
      ensures reelsSrc == old(reelsSrc) && isResizing == old(isResizing) && startX == old(startX)
      ensures startWidth == old(startWidth) && panelWidth == old(panelWidth)
    {
      if !monitoring {
        return;
      }
      var generating := CheckGenerating(llmSrc, llmSelectorValue, evaluation);
      OnSample(generating, delivered);
    }

    /** The interval callback once the probe has answered `generating`. */
    method OnSample(generating: bool, delivered: bool)
      requires Valid()
      modifies this
      ensures Valid()
      ensures
        var before := Playback(old(wasGenerating), old(isPaused));
        && Playback(wasGenerating, isPaused) == TickState(before, generating)
        && commands == old(commands) + (match TickCommand(before, generating) case Some(c) => [Sent(c, delivered)] case None => [])
        && overlayVisible == (match TickCommand(before, generating) case Some(c) => c == PauseVideos case None => old(overlayVisible))
        && statusText == (
             if !before.wasGenerating && generating then (if before.isPaused then "Playing" else "AI generating...")
             else if TickCommand(before, generating) == Some(PauseVideos) then "Paused - Response ready!"
             else old(statusText))
      ensures monitoring == old(monitoring)
      ensures llmSrc == old(llmSrc) && llmSelectorValue == old(llmSelectorValue) && llmLabel == old(llmLabel)
      ensures reelsSrc == old(reelsSrc) && isResizing == old(isResizing) && startX == old(startX)
      ensures startWidth == old(startWidth) && panelWidth == old(panelWidth)
    {
      ghost var before := Playback(wasGenerating, isPaused);
      if !wasGenerating && generating {
        statusText := "AI generating...";
        if isPaused {
          assert TickCommand(before, generating) == Some(PlayVideos);
          PlayReels(delivered);
        } else {
          assert TickCommand(before, generating) == None;
        }
      } else if wasGenerating && !generating {
        assert !isPaused && TickCommand(before, generating) == Some(PauseVideos);
        PauseReels(delivered);
      } else {
        assert TickCommand(before, generating) == None;
      }
      wasGenerating := generating;
    }

    /** Choosing an LLM loads it in the LLM view and relabels the selector. */
    method OnLlmSelectorChange(value: string)
      modifies this
      ensures llmSelectorValue == value && llmSrc == value && llmLabel == LabelFor(value)
      ensures wasGenerating == old(wasGenerating) && isPaused == old(isPaused) && commands == old(commands)
      ensures monitoring == old(monitoring) && overlayVisible == old(overlayVisible) && statusText == old(statusText)
      ensures reelsSrc == old(reelsSrc) && isResizing == old(isResizing) && startX == old(startX)
      ensures startWidth == old(startWidth) && panelWidth == old(panelWidth)
    {
      llmSelectorValue := value;
      llmSrc := value;
      llmLabel := LabelFor(value);
    }

    /** Choosing a platform loads its address in the reels view; an unknown key changes nothing. */
    method OnSocialSelectorChange(key: string)
      modifies this
      ensures reelsSrc == (match PlatformFor(key) case Some(p) => p.url case None => old(reelsSrc))
      ensures PlatformFor(key).None? ==> unchanged(this)
      ensures wasGenerating == old(wasGenerating) && isPaused == old(isPaused) && commands == old(commands)
      ensures monitoring == old(monitoring) && overlayVisible == old(overlayVisible) && statusText == old(statusText)
      ensures llmSrc == old(llmSrc) && llmSelectorValue == old(llmSelectorValue) && llmLabel == old(llmLabel)
      ensures isResizing == old(isResizing) && startX == old(startX)
      ensures startWidth == old(startWidth) && panelWidth == old(panelWidth)
    {
      var platform := PlatformFor(key);
      if platform.Some? {
        reelsSrc := platform.value.url;
      }
    }

    /** mousedown on the handle: remember where the drag started and the panel's width then. */
    method OnMouseDown(clientX: int, offsetWidth: int)
      modifies this
      ensures isResizing && startX == clientX && startWidth == offsetWidth
      ensures panelWidth == old(panelWidth)
      ensures wasGenerating == old(wasGenerating) && isPaused == old(isPaused) && commands == old(commands)
      ensures monitoring == old(monitoring) && overlayVisible == old(overlayVisible) && statusText == old(statusText)
      ensures llmSrc == old(llmSrc) && llmSelectorValue == old(llmSelectorValue) && llmLabel == old(llmLabel)
      ensures reelsSrc == old(reelsSrc)
    {
      isResizing := true;
      startX := clientX;
      startWidth := offsetWidth;
    }

    /** mousemove: ignored unless resizing; otherwise the width follows the drag within [320, 600]. */
    method OnMouseMove(clientX: int)
      modifies this
      ensures !old(isResizing) ==> panelWidth == old(panelWidth)
      ensures old(isResizing) ==> panelWidth == ClampWidth(startWidth + (startX - clientX), MinWidth, MaxWidth)
      ensures old(isResizing) ==> MinWidth <= panelWidth <= MaxWidth
      ensures !old(isResizing) ==> unchanged(this)
      ensures isResizing == old(isResizing) && startX == old(startX) && startWidth == old(startWidth)
      ensures wasGenerating == old(wasGenerating) && isPaused == old(isPaused) && commands == old(commands)
      ensures monitoring == old(monitoring) && overlayVisible == old(overlayVisible) && statusText == old(statusText)
      ensures llmSrc == old(llmSrc) && llmSelectorValue == old(llmSelectorValue) && llmLabel == old(llmLabel)
      ensures reelsSrc == old(reelsSrc)
    {
      if !isResizing {
        return;
      }
      var diff := startX - clientX;
      panelWidth := ClampWidth(startWidth + diff, MinWidth, MaxWidth);
    }

    method OnMouseUp()
      modifies this
      ensures !isResizing && panelWidth == old(panelWidth)
      ensures startX == old(startX) && startWidth == old(startWidth)
      ensures wasGenerating == old(wasGenerating) && isPaused == old(isPaused) && commands == old(commands)
      ensures monitoring == old(monitoring) && overlayVisible == old(overlayVisible) && statusText == old(statusText)
      ensures llmSrc == old(llmSrc) && llmSelectorValue == old(llmSelectorValue) && llmLabel == old(llmLabel)
      ensures reelsSrc == old(reelsSrc)
    {
      isResizing := false;
    }
  }
}
