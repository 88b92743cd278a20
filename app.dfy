/**
 * The React front end of the desktop app (desktop-app/src/App.tsx): the same poll
 * and pause/play guard as renderer.js, but the reels start paused, the status is a
 * three-valued state, and the webviews may not be mounted yet.
 */
module App {
  import opened Wrappers
  import opened Text
  import opened Registry
  import opened Debouncer
  import opened Desktop
  import opened Menu

  // ---------------------------------------------------------------------------
  // cn: class-name merging

  /** An argument of `cn`: a string, a boolean (usually `cond && "class"`), or undefined. */
  datatype ClassArg = ClassName(name: string) | Condition(holds: bool) | Undefined

  /** JavaScript truthiness of an argument. */
  predicate IsTruthy(a: ClassArg) {
    match a
    case ClassName(name) => name != ""
    case Condition(holds) => holds
    case Undefined => false
  }

  /** How `join` renders a kept argument (`true` becomes the text "true"). */
  function Rendered(a: ClassArg): string {
    match a
    case ClassName(name) => name
    case Condition(_) => "true"
    case Undefined => ""
  }

  /** `classes.filter(Boolean)`, rendered as strings. */
  function Kept(args: seq<ClassArg>): (kept: seq<string>)
    ensures |kept| <= |args|
    ensures forall i :: 0 <= i < |kept| ==> kept[i] != ""
    ensures kept == [] <==> forall i :: 0 <= i < |args| ==> !IsTruthy(args[i])
    ensures |args| == 1 ==> kept == (if IsTruthy(args[0]) then [Rendered(args[0])] else [])
  {
    if args == [] then []
    else
      (if IsTruthy(args[0]) then [Rendered(args[0])] else []) + Kept(args[1..])
  }

  /** Filtering distributes over concatenation: the kept arguments stay in their order. */
  lemma {:induction false} KeptAppend(a: seq<ClassArg>, b: seq<ClassArg>)
    ensures Kept(a + b) == Kept(a) + Kept(b)
  {
    if a == [] {
      assert a + b == b;
    } else {
      assert (a + b)[0] == a[0];
      assert (a + b)[1..] == a[1..] + b;
      KeptAppend(a[1..], b);
    }
  }

  /** `cn(...classes)`: the truthy arguments joined with single spaces. */
  function Cn(args: seq<ClassArg>): (r: string)
    ensures r == "" <==> forall i :: 0 <= i < |args| ==> !IsTruthy(args[i])
  {
    var kept := Kept(args);
    assert kept != [] ==> Join(kept, " ") != "" by {
      if kept != [] && |kept| > 1 {
        assert Join(kept, " ") == kept[0] + " " + Join(kept[1..], " ");
      }
    }
    Join(kept, " ")
  }

  /** Merging two groups of arguments joins their merges with one space, or keeps whichever is non-empty. */
  lemma CnAppend(a: seq<ClassArg>, b: seq<ClassArg>)
    ensures Cn(a + b) ==
      if Cn(a) == "" then Cn(b) else if Cn(b) == "" then Cn(a) else Cn(a) + " " + Cn(b)
  {
    KeptAppend(a, b);
    if Kept(a) == [] {
      assert Kept(a) + Kept(b) == Kept(b);
    } else if Kept(b) == [] {
      assert Kept(a) + Kept(b) == Kept(a);
    } else {
      JoinAppend(Kept(a), Kept(b), " ");
    }
  }

  // ---------------------------------------------------------------------------
  // Provider choice and detection

  const LlmOptions: seq<MenuOption> := [
    MenuOption("chatgpt", "ChatGPT", "https://chatgpt.com"),
    MenuOption("claude", "Claude", "https://claude.ai"),
    MenuOption("gemini", "Gemini", "https://gemini.google.com")
  ]

  const SocialOptions: seq<MenuOption> := [
    MenuOption("instagram", "Instagram", "https://www.instagram.com/reels/"),
    MenuOption("tiktok", "TikTok", "https://www.tiktok.com/foryou"),
    MenuOption("youtube", "YouTube", "https://www.youtube.com/shorts"),
    MenuOption("twitter", "X (Twitter)", "https://x.com/home"),
    MenuOption("reddit", "Reddit", "https://www.reddit.com"),
    MenuOption("snapchat", "Snapchat", "https://www.snapchat.com/spotlight"),
    MenuOption("facebook", "Facebook", "https://www.facebook.com/reel/")
  ]

  /** `currentLlm?.url || ""`: the address detection matches against. */
  function ProviderUrl(provider: string): (url: string)
    ensures (exists k :: 0 <= k < |LlmOptions| && LlmOptions[k].value == provider && url == LlmOptions[k].url) ||
      ((forall k :: 0 <= k < |LlmOptions| ==> LlmOptions[k].value != provider) && url == "")
  {
    match FindOption(LlmOptions, provider)
    case Some(option) => option.url
    case None => ""
  }

  /** `currentLlm?.url || "https://chatgpt.com"`: the address the LLM webview shows. */
  function LlmViewSrc(provider: string): (src: string)
    ensures (exists k :: 0 <= k < |LlmOptions| && LlmOptions[k].value == provider && src == LlmOptions[k].url) ||
      ((forall k :: 0 <= k < |LlmOptions| ==> LlmOptions[k].value != provider) && src == "https://chatgpt.com")
  {
    match FindOption(LlmOptions, provider)
    case Some(option) => option.url
    case None => "https://chatgpt.com"
  }

  /** `currentSocial?.url || "https://www.instagram.com/reels/"`: the address the reels webview shows. */
  function ReelsViewSrc(platform: string): (src: string)
    ensures (exists k :: 0 <= k < |SocialOptions| && SocialOptions[k].value == platform && src == SocialOptions[k].url) ||
      ((forall k :: 0 <= k < |SocialOptions| ==> SocialOptions[k].value != platform) && src == "https://www.instagram.com/reels/")
  {
    match FindOption(SocialOptions, platform)
    case Some(option) => option.url
    case None => "https://www.instagram.com/reels/"
  }

  /** getCurrentLLMConfig: the scan of the configuration table over the provider's address. */
  method GetCurrentLLMConfig(provider: string) returns (config: LlmConfig)
    ensures config == ConfigFor(ProviderUrl(provider))
  {
    var current := FindOption(LlmOptions, provider);
    var url := if current.Some? then current.value.url else "";
    config := LookupConfig(url);
  }

  /**
   * The configuration for an address that contains entry `i`'s domain at `at`, and
   * for each earlier entry lacks one of its characters (`missing[j]`), is entry `i`'s.
   */
  lemma ConfigAt(url: string, i: nat, at: nat, missing: seq<char>)
    requires i < |LlmSelectors| && OccursAt(url, LlmSelectors[i].key, at)
    requires |missing| == i
    requires forall j :: 0 <= j < i ==> missing[j] in LlmSelectors[j].key && missing[j] !in url
    ensures ConfigFor(url) == LlmSelectors[i].value
  {
    forall j | 0 <= j < i
      ensures !Includes(url, LlmSelectors[j].key)
    {
      MissingCharExcludes(url, LlmSelectors[j].key, missing[j]);
    }
    assert IsFirstMatch(LlmSelectors, url, i);
  }

  /** A menu option's value selects that option's address. */
  lemma ProviderUrlOfOption(i: nat)
    requires i < |LlmOptions|
    ensures ProviderUrl(LlmOptions[i].value) == LlmOptions[i].url
  {
    if i == 1 {
      assert FindOption(LlmOptions[1..], "claude") == Some(LlmOptions[1]);
    } else if i == 2 {
      assert FindOption(LlmOptions[2..], "gemini") == Some(LlmOptions[2]);
      assert FindOption(LlmOptions[1..], "gemini") == Some(LlmOptions[2]);
    }
  }

  /** The chatgpt option's address is detected with the chatgpt.com configuration. */
  lemma ChatGptUrlConfig()
    ensures ConfigFor(LlmOptions[0].url) == LlmSelectors[0].value
  {
    var url := LlmOptions[0].url;
    assert url == "https://chatgpt.com";
    ConfigAt(url, 0, 8, []);
  }

  /** The claude option's address is detected with the claude.ai configuration, not the chatgpt.com one. */
  lemma ClaudeUrlConfig()
    ensures ConfigFor(LlmOptions[1].url) == LlmSelectors[1].value
  {
    var url := LlmOptions[1].url;
    assert url == "https://claude.ai";
    ConfigAt(url, 1, 8, ['g']);
  }

  /** The gemini option's address holds its domain but no 'a', which both earlier domains contain. */
  lemma GeminiUrlShape()
    ensures OccursAt(LlmOptions[2].url, LlmSelectors[2].key, 8)
    ensures 'a' !in LlmOptions[2].url
    ensures 'a' in LlmSelectors[0].key && 'a' in LlmSelectors[1].key
  {
    assert LlmOptions[2].url == "https://gemini.google.com";
  }

  /** The gemini option's address is detected with the gemini.google.com configuration. */
  lemma GeminiUrlConfig()
    ensures ConfigFor(LlmOptions[2].url) == LlmSelectors[2].value
  {
    GeminiUrlShape();
    ConfigAt(LlmOptions[2].url, 2, 8, ['a', 'a']);
  }

  /** Each menu provider is detected with its own configuration: the i-th option gets the i-th table entry. */
  lemma ProviderGetsOwnConfig(i: nat)
    requires i < |LlmOptions|
    ensures ConfigFor(ProviderUrl(LlmOptions[i].value)) == LlmSelectors[i].value
  {
    ProviderUrlOfOption(i);
    if i == 0 {
      ChatGptUrlConfig();
    } else if i == 1 {
      ClaudeUrlConfig();
    } else {
      GeminiUrlConfig();
    }
  }

  /**
   * Detection always follows the page on screen: for any provider value, the
   * configuration chosen for detection is the one the LLM webview's own address
   * selects (an unknown provider shows chatgpt.com and is probed as ChatGPT).
   */
  lemma DetectionFollowsShownPage(provider: string)
    ensures ConfigFor(ProviderUrl(provider)) == ConfigFor(LlmViewSrc(provider))
  {
    if FindOption(LlmOptions, provider).None? {
      assert NoMatch(LlmSelectors, "");
      assert OccursAt("https://chatgpt.com", "chatgpt.com", 8);
      assert IsFirstMatch(LlmSelectors, "https://chatgpt.com", 0);
    }
  }

  /** checkGenerating: false without a mounted LLM view or when the script fails, else the probe's answer. */
  method CheckGenerating(provider: string, llmViewMounted: bool, evaluation: Evaluation) returns (generating: bool)
    ensures generating == (llmViewMounted && ProbeResult(ConfigFor(ProviderUrl(provider)), evaluation))
  {
    var llm := GetCurrentLLMConfig(provider);
    if !llmViewMounted {
      return false;
    }
    match evaluation {
      case EvaluationFails =>
        generating := false;
      case Evaluated(doc) =>
        generating := RunProbeScript(llm.generating, doc);
    }
  }

  // ---------------------------------------------------------------------------
  // Status and the monitor tick

  datatype Status = Ready | Generating | Paused

  /** The status a tick leaves: the command's status when it issues one, "generating" on an uncommanded start. */
  function TickStatus(status: Status, state: Playback, generating: bool): (next: Status)
    ensures TickCommand(state, generating) == Some(PlayVideos) ==> next == Ready
    ensures TickCommand(state, generating) == Some(PauseVideos) ==> next == Paused
    ensures TickCommand(state, generating).None? ==>
      next == (if !state.wasGenerating && generating then Generating else status)
  {
    match TickCommand(state, generating)
    case Some(PlayVideos) => Ready
    case Some(PauseVideos) => Paused
    case None => if !state.wasGenerating && generating then Generating else status
  }

  /** The status after a run of ticks. */
  function RunStatus(status: Status, state: Playback, samples: seq<bool>): Status
    decreases |samples|
  {
    if samples == [] then status
    else RunStatus(TickStatus(status, state, samples[0]), TickState(state, samples[0]), samples[1..])
  }

  /** The status the synced controller shows: "ready" while the AI was last seen generating, else "paused". */
  function SettledStatus(wasGenerating: bool): Status {
    if wasGenerating then Ready else Paused
  }

  /** The starting state: not generating, reels paused, status "paused". */
  const InitialPlayback := Playback(false, true)

  /**
   * Because the reels start paused and every edge flips the paused flag, each start
   * finds the reels paused, so playReels overrides "generating" with "ready" in the
   * same tick: after any run the status is "ready" or "paused", never "generating".
   */
  lemma {:induction false} SyncedStatusSettles(status: Status, state: Playback, samples: seq<bool>)
    requires Synced(state) && status == SettledStatus(state.wasGenerating)
    ensures RunStatus(status, state, samples) == SettledStatus(RunState(state, samples).wasGenerating)
    ensures RunStatus(status, state, samples) != Generating
    decreases |samples|
  {
    if samples != [] {
      SyncedStatusSettles(TickStatus(status, state, samples[0]), TickState(state, samples[0]), samples[1..]);
    }
  }

  /** From the initial state, every sign change issues one command, alternately play and pause. */
  lemma InitialRunFollowsEdges(samples: seq<bool>)
    ensures RunCommands(InitialPlayback, samples) == CommandsFor(Edges(false, samples))
    ensures |RunCommands(InitialPlayback, samples)| == Changes(false, samples)
    ensures RunState(InitialPlayback, samples).isPaused == !RunState(InitialPlayback, samples).wasGenerating
    ensures RunStatus(Paused, InitialPlayback, samples) != Generating
  {
    SyncedRunFollowsEdges(InitialPlayback, samples);
    SyncedStatusSettles(Paused, InitialPlayback, samples);
  }

  const MinWidth := 350
  const MaxWidth := 600

  class ReelsApp {
    var llmProvider: string
    var socialPlatform: string
    var status: Status
    var isPaused: bool
    var reelsWidth: int
    var wasGenerating: bool
    var isResizing: bool
    var startX: int
    var startWidth: int
    /** The scripts executed on the reels webview, in order. */
    var commands: seq<Sent>

    /** The paused flag follows the last sample, the status is settled, and the width is in bounds. */
    ghost predicate Valid()
      reads this
    {
      && Synced(Playback(wasGenerating, isPaused))
      && status == SettledStatus(wasGenerating)
      && MinWidth <= reelsWidth <= MaxWidth
    }

    /** The component's initial state. */
    constructor ()
      ensures Valid()
      ensures llmProvider == "chatgpt" && socialPlatform == "instagram"
      ensures status == Paused && isPaused && reelsWidth == 400
      ensures !wasGenerating && !isResizing && startX == 0 && startWidth == 0 && commands == []
    {
      llmProvider, socialPlatform := "chatgpt", "instagram";
      status, isPaused, reelsWidth := Paused, true, 400;
      wasGenerating, isResizing, startX, startWidth := false, false, 0, 0;
      commands := [];
    }

    /**
     * pauseReels: a no-op when paused; otherwise paused with status "paused", and the
     * pause script is sent only if the reels view is mounted.
     */
    method PauseReels(reelsViewMounted: bool, delivered: bool)
      modifies this
      ensures isPaused
      ensures old(isPaused) ==> status == old(status) && commands == old(commands)
      ensures !old(isPaused) ==> status == Paused
      ensures !old(isPaused) ==>
        commands == old(commands) + (if reelsViewMounted then [Sent(PauseVideos, delivered)] else [])
      ensures llmProvider == old(llmProvider) && socialPlatform == old(socialPlatform)
      ensures reelsWidth == old(reelsWidth) && wasGenerating == old(wasGenerating)
      ensures isResizing == old(isResizing) && startX == old(startX) && startWidth == old(startWidth)
    {
      if isPaused {
        return;
      }
      isPaused := true;
      status := Paused;
      if reelsViewMounted {
        commands := commands + [Sent(PauseVideos, delivered)];
      }
    }

    /** playReels: a no-op when playing; otherwise playing with status "ready", the script sent if mounted. */
    method PlayReels(reelsViewMounted: bool, delivered: bool)
      modifies this
      ensures !isPaused
      ensures !old(isPaused) ==> status == old(status) && commands == old(commands)
      ensures old(isPaused) ==> status == Ready
      ensures old(isPaused) ==>
        commands == old(commands) + (if reelsViewMounted then [Sent(PlayVideos, delivered)] else [])
      ensures llmProvider == old(llmProvider) && socialPlatform == old(socialPlatform)
      ensures reelsWidth == old(reelsWidth) && wasGenerating == old(wasGenerating)
      ensures isResizing == old(isResizing) && startX == old(startX) && startWidth == old(startWidth)
    {
      if !isPaused {
        return;
      }
      isPaused := false;
      status := Ready;
      if reelsViewMounted {
        commands := commands + [Sent(PlayVideos, delivered)];
      }
    }

    /**
     * One tick of the monitor effect. Playback and status follow the pure step; a
     * command reaches the log only when the reels view is mounted.
     */
    method Tick(llmViewMounted: bool, evaluation: Evaluation, reelsViewMounted: bool, delivered: bool)
      requires Valid()
      modifies this
      ensures Valid()
      ensures
        var g := llmViewMounted && ProbeResult(ConfigFor(ProviderUrl(llmProvider)), evaluation);
        var before := Playback(old(wasGenerating), old(isPaused));
        && Playback(wasGenerating, isPaused) == TickState(before, g)
        && status == TickStatus(old(status), before, g)
        && commands == old(commands) +
             (match TickCommand(before, g)
              case Some(c) => if reelsViewMounted then [Sent(c, delivered)] else []
              case None => [])
      ensures llmProvider == old(llmProvider) && socialPlatform == old(socialPlatform)
      ensures reelsWidth == old(reelsWidth)
      ensures isResizing == old(isResizing) && startX == old(startX) && startWidth == old(startWidth)
    {
      var generating := CheckGenerating(llmProvider, llmViewMounted, evaluation);
      if !wasGenerating && generating {
        status := Generating;
        if isPaused {
          PlayReels(reelsViewMounted, delivered);
        }
      }
      if wasGenerating && !generating {
        PauseReels(reelsViewMounted, delivered);
      }
      wasGenerating := generating;
    }

    /**
     * The reels view's dom-ready handler (its timer assumed to have fired): the pause
     * script is sent whatever the paused flag says, and no state changes.
     */
    method PauseOnLoad(reelsViewMounted: bool, delivered: bool)
      requires Valid()
      modifies this
      ensures Valid()
      ensures commands == old(commands) + (if reelsViewMounted then [Sent(PauseVideos, delivered)] else [])
      ensures isPaused == old(isPaused) && status == old(status) && wasGenerating == old(wasGenerating)
      ensures llmProvider == old(llmProvider) && socialPlatform == old(socialPlatform)
      ensures reelsWidth == old(reelsWidth)
      ensures isResizing == old(isResizing) && startX == old(startX) && startWidth == old(startWidth)
    {
      if reelsViewMounted {
        commands := commands + [Sent(PauseVideos, delivered)];
      }
    }

    /** Choosing an LLM in its menu. */
    method SelectLlm(value: string)
      modifies this
      ensures llmProvider == value
      ensures socialPlatform == old(socialPlatform) && status == old(status) && isPaused == old(isPaused)
      ensures wasGenerating == old(wasGenerating) && commands == old(commands) && reelsWidth == old(reelsWidth)
      ensures isResizing == old(isResizing) && startX == old(startX) && startWidth == old(startWidth)
    {
      llmProvider := value;
    }

    /** Choosing a platform in its menu. */
    method SelectSocial(value: string)
      modifies this
      ensures socialPlatform == value
      ensures llmProvider == old(llmProvider) && status == old(status) && isPaused == old(isPaused)
      ensures wasGenerating == old(wasGenerating) && commands == old(commands) && reelsWidth == old(reelsWidth)
      ensures isResizing == old(isResizing) && startX == old(startX) && startWidth == old(startWidth)
    {
      socialPlatform := value;
    }

    /** handleResizeStart: the drag starts from the current width. */
    method OnResizeStart(clientX: int)
      modifies this
      ensures isResizing && startX == clientX && startWidth == reelsWidth
      ensures reelsWidth == old(reelsWidth) && status == old(status) && isPaused == old(isPaused)
      ensures wasGenerating == old(wasGenerating) && commands == old(commands)
      ensures llmProvider == old(llmProvider) && socialPlatform == old(socialPlatform)
    {
      isResizing := true;
      startX := clientX;
      startWidth := reelsWidth;
    }

    /** handleMouseMove: ignored unless resizing; otherwise the width follows the drag within [350, 600]. */
    method OnMouseMove(clientX: int)
      modifies this
      ensures !old(isResizing) ==> reelsWidth == old(reelsWidth)
      ensures old(isResizing) ==> reelsWidth == ClampWidth(startWidth + (startX - clientX), MinWidth, MaxWidth)
      ensures old(isResizing) ==> MinWidth <= reelsWidth <= MaxWidth
      ensures isResizing == old(isResizing) && startX == old(startX) && startWidth == old(startWidth)
      ensures status == old(status) && isPaused == old(isPaused) && wasGenerating == old(wasGenerating)
      ensures commands == old(commands) && llmProvider == old(llmProvider) && socialPlatform == old(socialPlatform)
    {
      if !isResizing {
        return;
      }
      var diff := startX - clientX;
      reelsWidth := ClampWidth(startWidth + diff, MinWidth, MaxWidth);
    }

    /** handleMouseUp: the drag ends. */
    method OnMouseUp()
      modifies this
      ensures !isResizing
      ensures reelsWidth == old(reelsWidth) && startX == old(startX) && startWidth == old(startWidth)
      ensures status == old(status) && isPaused == old(isPaused) && wasGenerating == old(wasGenerating)
      ensures commands == old(commands) && llmProvider == old(llmProvider) && socialPlatform == old(socialPlatform)
    {
      isResizing := false;
    }
  }
}
