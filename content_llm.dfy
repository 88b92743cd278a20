/**
 * The browser extension's content script for AI chat pages (extension/content-llm.js):
 * it finds the selector list for the page's host, probes the page for a visible
 * "stop generating" control, and on each 200 ms tick turns a change of that signal
 * into a pause or resume of the reels frame in its side panel. Pausing blanks the
 * frame and remembers its address; resuming loads the remembered address again.
 */
module ContentLlm {
  import opened Wrappers
  import opened Text
  import opened Registry
  import opened Page
  import opened Debouncer
  import opened Menu

  const SocialOptions: seq<MenuOption> := [
    MenuOption("instagram", "Instagram", "https://www.instagram.com/reels/"),
    MenuOption("tiktok", "TikTok", "https://www.tiktok.com/foryou"),
    MenuOption("youtube", "YouTube Shorts", "https://m.youtube.com/shorts"),
    MenuOption("twitter", "X (Twitter)", "https://mobile.x.com/home"),
    MenuOption("reddit", "Reddit", "https://www.reddit.com"),
    MenuOption("facebook", "Facebook", "https://m.facebook.com/reel/")
  ]

  /** Per-site selectors of a visible "stop" control or streaming marker, in declaration order. */
  const GenerationSelectors: seq<Entry<seq<string>>> := [
    Entry("chatgpt.com", [
      "button[aria-label=\"Stop generating\"]",
      "button[aria-label=\"Stop streaming\"]",
      "button[data-testid=\"stop-button\"]",
      "button[class*=\"stop\"]",
      "[class*=\"result-streaming\"]",
      "[data-message-author-role=\"assistant\"][class*=\"streaming\"]"]),
    Entry("chat.openai.com", [
      "button[aria-label=\"Stop generating\"]",
      "button[data-testid=\"stop-button\"]",
      "button[class*=\"stop\"]"]),
    Entry("claude.ai", [
      "button[aria-label=\"Stop Response\"]",
      "button[aria-label*=\"Stop\"]",
      "[data-testid=\"stop-button\"]",
      "[class*=\"streaming\"]"]),
    Entry("gemini.google.com", [
      "button[aria-label=\"Stop generating\"]",
      "button[data-testid=\"stop-button\"]",
      "button[mattooltip=\"Stop\"]",
      "mat-spinner",
      "[class*=\"loading-indicator\"]"])
  ]

  /** The ChatGPT-only fallback probes. */
  const CursorSelector := "[class*=\"cursor\"]"
  const ThinkingSelector := "[class*=\"thinking\"], [class*=\"Thinking\"]"

  const Blank := "about:blank"

  // ---------------------------------------------------------------------------
  // Provider lookup and the generation probe

  /** The selector list for a hostname: that of the first key it includes, and none for an unknown host. */
  function SelectorsFor(hostname: string): (selectors: seq<string>)
    ensures selectors == [] <==> NoMatch(GenerationSelectors, hostname)
    ensures forall k :: IsFirstMatch(GenerationSelectors, hostname, k) ==> selectors == GenerationSelectors[k].value
  {
    match FirstMatch(GenerationSelectors, hostname)
    case Some(k) => GenerationSelectors[k].value
    case None => []
  }

  /** getSelectors: scan the table in declaration order. */
  method GetSelectors(hostname: string) returns (selectors: seq<string>)
    ensures selectors == SelectorsFor(hostname)
  {
    var k := FindFirst(GenerationSelectors, hostname);
    match k {
      case Some(i) => selectors := GenerationSelectors[i].value;
      case None => selectors := [];
    }
  }

  /** isVisible: an element hidden by style, fully transparent, without area, or unreadable is not visible. */
  predicate IsVisible(e: ElementView): (visible: bool)
    ensures visible <==>
      && e.Rendered?
      && e.display != "none" && e.visibility != "hidden" && e.opacity != "0"
      && e.width > 0.0 && e.height > 0.0
  {
    match e
    case Unmeasurable => false
    case Rendered(display, visibility, opacity, width, height) =>
      if display == "none" || visibility == "hidden" || opacity == "0" then false
      else width > 0.0 && height > 0.0
  }

  ghost predicate AnyVisible(elements: seq<ElementView>) {
    exists j :: 0 <= j < |elements| && IsVisible(elements[j])
  }

  /** Some element matching `selector` is visible; a selector whose query throws never fires. */
  ghost predicate SelectorFires(doc: Document, selector: string) {
    doc.QueryAll(selector).Matches? && AnyVisible(doc.QueryAll(selector).elements)
  }

  ghost predicate FoundVisible(r: FirstResult) {
    r.Found? && IsVisible(r.element)
  }

  /** What a probe yields: a signal, or an exception that escapes it. */
  datatype Sample = Value(generating: bool) | Raised

  /**
   * The meaning of isGenerating: generating iff some selector of the host has a
   * visible match, or, on a host containing "chatgpt", the first cursor or thinking
   * element is visible. Those two fallback queries are not guarded, so an exception
   * from them escapes the probe.
   */
  /** Some selector of the list fires. */
  ghost predicate AnyFires(doc: Document, selectors: seq<string>) {
    exists i :: 0 <= i < |selectors| && SelectorFires(doc, selectors[i])
  }

  ghost function GenerationSignal(hostname: string, doc: Document): Sample {
    if AnyFires(doc, SelectorsFor(hostname)) then Value(true)
    else if !Includes(hostname, "chatgpt") then Value(false)
    else FallbackSignal(doc)
  }

  /** The ChatGPT fallback: the first cursor element, then the first thinking element. */
  ghost function FallbackSignal(doc: Document): Sample {
    var cursor := doc.QueryFirst(CursorSelector);
    if cursor.Raises? then Raised
    else if FoundVisible(cursor) then Value(true)
    else
      var thinking := doc.QueryFirst(ThinkingSelector);
      if thinking.Raises? then Raised
      else Value(FoundVisible(thinking))
  }

  /** The inner loop of isGenerating: the matches of one selector, scanned until a visible one. */
  method AnyMatchVisible(elements: seq<ElementView>) returns (found: bool)
    ensures found <==> AnyVisible(elements)
  {
    var j := 0;
    while j < |elements|
      invariant 0 <= j <= |elements|
      invariant forall j' :: 0 <= j' < j ==> !IsVisible(elements[j'])
    {
      if IsVisible(elements[j]) {
        return true;
      }
      j := j + 1;
    }
    return false;
  }

  /** The outer loop of isGenerating: the selectors in order, a throwing one skipped, until one fires. */
  method AnySelectorFires(selectors: seq<string>, doc: Document) returns (fires: bool)
    ensures fires <==> AnyFires(doc, selectors)
  {
    var i := 0;
    while i < |selectors|
      invariant 0 <= i <= |selectors|
      invariant forall i' :: 0 <= i' < i ==> !SelectorFires(doc, selectors[i'])
    {
      match doc.QueryAll(selectors[i]) {
        case Throws =>
        case Matches(elements) =>
          var found := AnyMatchVisible(elements);
          if found {
            return true;
          }
      }
      i := i + 1;
    }
    return false;
  }

  /** isGenerating: every match of every selector is examined; a throwing selector is skipped. */
  method IsGenerating(hostname: string, doc: Document) returns (r: Sample)
    ensures r == GenerationSignal(hostname, doc)
  {
    var selectors := GetSelectors(hostname);
    var fires := AnySelectorFires(selectors, doc);
    if fires {
      return Value(true);
    }
    if Includes(hostname, "chatgpt") {
      r := ProbeFallback(doc);
      return;
    }
    return Value(false);
  }

  /** The unguarded cursor and thinking queries; an exception from either escapes. */
  method ProbeFallback(doc: Document) returns (r: Sample)
    ensures r == FallbackSignal(doc)
  {
    var cursor := doc.QueryFirst(CursorSelector);
    if cursor.Raises? {
      return Raised;
    }
    if cursor.Found? && IsVisible(cursor.element) {
      return Value(true);
    }
    var thinking := doc.QueryFirst(ThinkingSelector);
    if thinking.Raises? {
      return Raised;
    }
    return Value(thinking.Found? && IsVisible(thinking.element));
  }

  /** On a host that no key matches and that does not contain "chatgpt", the probe never reports generation. */
  lemma UnknownHostNeverGenerating(hostname: string, doc: Document)
    requires NoMatch(GenerationSelectors, hostname) && !Includes(hostname, "chatgpt")
    ensures GenerationSignal(hostname, doc) == Value(false)
  {
  }

  /** A selector whose query throws does not stop the probe: a later selector that fires still counts. */
  lemma ThrowingSelectorSkipped(hostname: string, doc: Document, i: nat, k: nat)
    requires i < k < |SelectorsFor(hostname)|
    requires doc.QueryAll(SelectorsFor(hostname)[i]).Throws?
    requires SelectorFires(doc, SelectorsFor(hostname)[k])
    ensures GenerationSignal(hostname, doc) == Value(true)
  {
  }

  // ---------------------------------------------------------------------------
  // The side panel's frame, overlay and selector, while the panel exists

  datatype PanelView = PanelView(
    overlayVisible: bool,   // the pause overlay carries the class 'visible'
    statusText: string,
    src: string,            // the frame's src
    savedSrc: string,       // the frame's data-saved-src
    loadingShown: bool,
    selectedLabel: string,
    dropdownOpen: bool,     // the dropdown and its button carry the class 'open'
    selected: seq<bool>)    // which options carry the class 'selected'

  /** showPauseOverlay: show the overlay and blank the frame, remembering a non-blank address. */
  function PausedPanel(p: PanelView): (q: PanelView)
    ensures q.overlayVisible && q.statusText == "Paused" && q.src == Blank
    ensures q.savedSrc == if p.src != Blank then p.src else p.savedSrc
    ensures q.loadingShown == p.loadingShown && q.selectedLabel == p.selectedLabel
    ensures q.dropdownOpen == p.dropdownOpen && q.selected == p.selected
  {
    var q := p.(overlayVisible := true, statusText := "Paused");
    if p.src != Blank then q.(savedSrc := p.src, src := Blank) else q
  }

  /** hidePauseOverlay: hide the overlay and load the remembered address, if there is one. */
  function ResumedPanel(p: PanelView): (q: PanelView)
    ensures !q.overlayVisible && q.statusText == "Generating..." && q.savedSrc == p.savedSrc
    ensures p.savedSrc != "" ==> q.src == p.savedSrc && q.loadingShown
    ensures p.savedSrc == "" ==> q.src == p.src && q.loadingShown == p.loadingShown
    ensures q.selectedLabel == p.selectedLabel && q.dropdownOpen == p.dropdownOpen && q.selected == p.selected
  {
    var q := p.(overlayVisible := false, statusText := "Generating...");
    if p.savedSrc != "" then q.(loadingShown := true, src := p.savedSrc) else q
  }

  /** Pausing twice is pausing once: the second call finds the frame blank and keeps the saved address. */
  lemma PauseIsIdempotent(p: PanelView)
    ensures PausedPanel(PausedPanel(p)) == PausedPanel(p)
    ensures PausedPanel(PausedPanel(p)).savedSrc == PausedPanel(p).savedSrc
  {
  }

  /** Pausing then resuming reloads the address that was playing (or the saved one, if the frame was blank). */
  lemma PauseThenResumeRestores(p: PanelView)
    requires p.src != "" && p.savedSrc != ""
    ensures PausedPanel(p).src == Blank
    ensures ResumedPanel(PausedPanel(p)).src == (if p.src != Blank then p.src else p.savedSrc)
    ensures !ResumedPanel(PausedPanel(p)).overlayVisible
  {
  }

  /** Resuming then pausing keeps the remembered address for the next resume. */
  lemma ResumeThenPauseKeepsAddress(p: PanelView)
    requires p.savedSrc != "" && p.savedSrc != Blank
    ensures PausedPanel(ResumedPanel(p)).savedSrc == p.savedSrc
    ensures PausedPanel(ResumedPanel(p)).src == Blank
  {
  }

  /** selectPlatform on an open panel: the address is always saved, but loaded only while the reels play. */
  function PlatformSelected(p: PanelView, value: string, url: string, caption: string): (q: PanelView)
    ensures q.savedSrc == url && q.selectedLabel == caption && q.selected == Selection(SocialOptions, value)
    ensures q.src == (if p.overlayVisible then p.src else url)
    ensures q.loadingShown == (p.loadingShown || !p.overlayVisible)
    ensures q.overlayVisible == p.overlayVisible && q.statusText == p.statusText && q.dropdownOpen == p.dropdownOpen
  {
    var q := p.(selectedLabel := caption, savedSrc := url, selected := Selection(SocialOptions, value));
    if !p.overlayVisible then q.(loadingShown := true, src := url) else q
  }

  /** A platform chosen while paused is not loaded at once, but is what the next resume loads. */
  lemma SelectionTakesEffectOnResume(p: PanelView, value: string, url: string, caption: string)
    requires url != ""
    ensures p.overlayVisible ==> PlatformSelected(p, value, url, caption).src == p.src
    ensures p.overlayVisible ==> ResumedPanel(PlatformSelected(p, value, url, caption)).src == url
    ensures !p.overlayVisible ==> PlatformSelected(p, value, url, caption).src == url
    ensures PlatformSelected(p, value, url, caption).savedSrc == url
  {
  }

  /** The label of the option with value `platform`, or the initial label when there is none. */
  function LabelIn(options: seq<MenuOption>, platform: string): string {
    match FindOption(options, platform)
    case Some(option) => option.caption
    case None => "Instagram"
  }

  /** The panel as createPanel builds it, before its initial pause: the label is fixed to "Instagram". */
  function OpenedPanelAsWritten(platform: string, socialUrl: string): PanelView {
    PanelView(false, "Paused", Blank, socialUrl, false, "Instagram", false, Selection(SocialOptions, platform))
  }

  /** The panel as createPanel evidently means to build it: the label names the current platform. */
  function OpenedPanel(platform: string, socialUrl: string): PanelView {
    OpenedPanelAsWritten(platform, socialUrl).(selectedLabel := LabelIn(SocialOptions, platform))
  }

  /**
   * As written, a panel reopened after choosing TikTok marks TikTok selected and will
   * load the TikTok address, but its label still reads "Instagram".
   */
  lemma ReopenedLabelDisagrees(socialUrl: string)
    ensures OpenedPanelAsWritten("tiktok", socialUrl).selected[1]
    ensures SocialOptions[1].value == "tiktok"
    ensures OpenedPanelAsWritten("tiktok", socialUrl).selectedLabel != SocialOptions[1].caption
  {
  }

  /** Corrected: a reopened panel's label is the label of the one option it marks selected. */
  lemma OpenedPanelLabelAgrees(k: nat, socialUrl: string)
    requires k < |SocialOptions|
    ensures OpenedPanel(SocialOptions[k].value, socialUrl).selected[k]
    ensures forall i :: 0 <= i < |SocialOptions| && OpenedPanel(SocialOptions[k].value, socialUrl).selected[i] ==> i == k
    ensures OpenedPanel(SocialOptions[k].value, socialUrl).selectedLabel == SocialOptions[k].caption
  {
    assert DistinctValues(SocialOptions);
    FindOptionIsFirst(SocialOptions, SocialOptions[k].value, k);
    SelectionMarksOne(SocialOptions, k);
  }

  function IndicatorText(panelOpen: bool): (text: string)
    ensures text == "Close ReelsMaxing" <==> panelOpen
    ensures !panelOpen ==> text == "Open ReelsMaxing"
  {
    if panelOpen then "Close ReelsMaxing" else "Open ReelsMaxing"
  }

  // ---------------------------------------------------------------------------
  // The monitor tick

  datatype OverlayCall = HideOverlay | ShowOverlay

  /** The overlay call a tick makes: hide on a false-to-true change, show on a true-to-false change. */
  function TickCall(wasGenerating: bool, generating: bool): (call: Option<OverlayCall>)
    ensures call == Some(HideOverlay) <==> !wasGenerating && generating
    ensures call == Some(ShowOverlay) <==> wasGenerating && !generating
  {
    if !wasGenerating && generating then Some(HideOverlay)
    else if wasGenerating && !generating then Some(ShowOverlay)
    else None
  }

  /** The overlay calls, in order, over a run of ticks with the given samples. */
  function OverlayCalls(wasGenerating: bool, samples: seq<bool>): seq<OverlayCall>
    decreases |samples|
  {
    if samples == [] then []
    else
      (match TickCall(wasGenerating, samples[0])
       case Some(c) => [c]
       case None => []) + OverlayCalls(samples[0], samples[1..])
  }

  function CallFor(e: Edge): OverlayCall {
    match e
    case Started => HideOverlay
    case Finished => ShowOverlay
  }

  function CallsFor(edges: seq<Edge>): (calls: seq<OverlayCall>)
    ensures |calls| == |edges|
    ensures forall i :: 0 <= i < |edges| ==> calls[i] == CallFor(edges[i])
  {
    seq(|edges|, i requires 0 <= i < |edges| => CallFor(edges[i]))
  }

  /** Each overlay call is the edge detector's edge: hide for a start, show for a finish. */
  lemma {:induction false} OverlayCallsAreEdges(wasGenerating: bool, samples: seq<bool>)
    ensures OverlayCalls(wasGenerating, samples) == CallsFor(Edges(wasGenerating, samples))
    decreases |samples|
  {
    if samples != [] {
      OverlayCallsAreEdges(samples[0], samples[1..]);
    }
  }

  /**
   * From the initial idle state, the number of overlay calls over any run is the
   * number of changes of the sampled signal, and the calls alternate starting with a hide.
   */
  lemma OverlayCallsCountChanges(samples: seq<bool>)
    ensures |OverlayCalls(false, samples)| == Changes(false, samples)
    ensures forall i :: 0 <= i < |OverlayCalls(false, samples)| ==>
      OverlayCalls(false, samples)[i] == (if i % 2 == 0 then HideOverlay else ShowOverlay)
  {
    OverlayCallsAreEdges(false, samples);
    EdgesCountChanges(false, samples);
    EdgesAlternate(false, samples);
    AlternatingAt(Started, |Edges(false, samples)|);
  }

  lemma {:induction false} AlternatingAt(first: Edge, n: nat)
    ensures forall i :: 0 <= i < n ==> Alternating(first, n)[i] == (if i % 2 == 0 then first else Opposite(first))
    decreases n
  {
    if n > 0 {
      AlternatingAt(Opposite(first), n - 1);
      assert Opposite(Opposite(first)) == first;
    }
  }

  // ---------------------------------------------------------------------------
  // The script's module-level state

  /** checkInterval: never set, running, or cleared (it is not reset to null when cleared). */
  datatype Interval = Unset | Running | Cleared

  function ApplyCall(panel: Option<PanelView>, call: Option<OverlayCall>): Option<PanelView> {
    match (panel, call)
    case (Some(p), Some(HideOverlay)) => Some(ResumedPanel(p))
    case (Some(p), Some(ShowOverlay)) => Some(PausedPanel(p))
    case _ => panel
  }

  class LlmPage {
    var wasGenerating: bool
    var interval: Interval
    var isPanelOpen: bool
    var isDropdownOpen: bool
    var currentPlatform: string
    var currentSocialUrl: string
    var indicatorText: string
    /** The side panel's elements; None while no panel exists (every lookup then yields null). */
    var panel: Option<PanelView>

    ghost predicate Valid()
      reads this
    {
      && (panel.Some? <==> isPanelOpen)
      && indicatorText == IndicatorText(isPanelOpen)
    }

    /** Script load followed by init(): the indicator is shown and monitoring starts. */
    constructor ()
      ensures Valid()
      ensures !wasGenerating && interval == Running
      ensures !isPanelOpen && !isDropdownOpen && panel == None
      ensures currentPlatform == "instagram" && currentSocialUrl == SocialOptions[0].url
      ensures indicatorText == "Open ReelsMaxing"
    {
      wasGenerating := false;
      interval := Running;
      isPanelOpen := false;
      isDropdownOpen := false;
      currentPlatform := "instagram";
      currentSocialUrl := SocialOptions[0].url;
      indicatorText := "Open ReelsMaxing";
      panel := None;
    }

    /** startMonitoring: a no-op once an interval exists, even a cleared one. */
    method StartMonitoring()
      modifies this
      ensures interval == if old(interval) == Unset then Running else old(interval)
      ensures wasGenerating == old(wasGenerating) && panel == old(panel)
      ensures isPanelOpen == old(isPanelOpen) && indicatorText == old(indicatorText)
      ensures isDropdownOpen == old(isDropdownOpen)
      ensures currentPlatform == old(currentPlatform) && currentSocialUrl == old(currentSocialUrl)
    {
      if interval != Unset {
        return;
      }
      interval := Running;
    }

    method ShowPauseOverlay()
      modifies this
      ensures panel == ApplyCall(old(panel), Some(ShowOverlay))
      ensures wasGenerating == old(wasGenerating) && interval == old(interval)
      ensures isPanelOpen == old(isPanelOpen) && indicatorText == old(indicatorText)
      ensures isDropdownOpen == old(isDropdownOpen)
      ensures currentPlatform == old(currentPlatform) && currentSocialUrl == old(currentSocialUrl)
    {
      if panel.Some? {
        panel := Some(PausedPanel(panel.value));
      }
    }

    method HidePauseOverlay()
      modifies this
      ensures panel == ApplyCall(old(panel), Some(HideOverlay))
      ensures wasGenerating == old(wasGenerating) && interval == old(interval)
      ensures isPanelOpen == old(isPanelOpen) && indicatorText == old(indicatorText)
      ensures isDropdownOpen == old(isDropdownOpen)
      ensures currentPlatform == old(currentPlatform) && currentSocialUrl == old(currentSocialUrl)
    {
      if panel.Some? {
        panel := Some(ResumedPanel(panel.value));
      }
    }

    /**
     * One interval tick. A cleared interval no longer fires. An invalidated extension
     * context, or an exception escaping the probe, clears the interval for good.
     * Otherwise the remembered signal becomes the sample and the overlay is hidden or
     * shown on a change.
     */
    method Tick(hostname: string, doc: Document, contextValid: bool)
      requires Valid()
      modifies this
      ensures Valid()
      ensures old(interval) != Running ==> interval == old(interval) && wasGenerating == old(wasGenerating) && panel == old(panel)
      ensures old(interval) == Running && (!contextValid || GenerationSignal(hostname, doc).Raised?) ==>
        interval == Cleared && wasGenerating == old(wasGenerating) && panel == old(panel)
      ensures old(interval) == Running && contextValid && GenerationSignal(hostname, doc).Value? ==>
        var g := GenerationSignal(hostname, doc).generating;
        && interval == Running
        && wasGenerating == g
        && panel == ApplyCall(old(panel), TickCall(old(wasGenerating), g))
      ensures isPanelOpen == old(isPanelOpen) && indicatorText == old(indicatorText)
      ensures isDropdownOpen == old(isDropdownOpen)
      ensures currentPlatform == old(currentPlatform) && currentSocialUrl == old(currentSocialUrl)
    {
      if interval != Running {
        return;
      }
      if !contextValid {
        interval := Cleared;
        return;
      }
      var sample := IsGenerating(hostname, doc);
      if sample.Raised? {
        interval := Cleared;
        return;
      }
      var generating := sample.generating;
      if !wasGenerating && generating {
        wasGenerating := true;
        HidePauseOverlay();
      }
      if wasGenerating && !generating {
        wasGenerating := false;
        ShowPauseOverlay();
      }
    }

    /**
     * createPanel: a no-op when a panel exists; otherwise the panel opens paused on
     * the current platform with the frame blank and the platform's address saved.
     * As written, the label always reads "Instagram" (see `ReopenedLabelDisagrees`).
     */
    method CreatePanel()
      requires Valid()
      modifies this
      ensures Valid()
      ensures old(panel).Some? ==> panel == old(panel) && isPanelOpen
      ensures old(panel).None? ==> isPanelOpen && panel == Some(PausedPanel(OpenedPanelAsWritten(currentPlatform, currentSocialUrl)))
      ensures old(panel).None? ==> panel.value.src == Blank && panel.value.savedSrc == currentSocialUrl && panel.value.overlayVisible
      ensures old(panel).None? ==> panel.value.selectedLabel == "Instagram"
      ensures indicatorText == "Close ReelsMaxing"
      ensures wasGenerating == old(wasGenerating) && interval == old(interval)
      ensures isDropdownOpen == old(isDropdownOpen)
      ensures currentPlatform == old(currentPlatform) && currentSocialUrl == old(currentSocialUrl)
    {
      if panel.Some? {
        return;
      }
      panel := Some(OpenedPanelAsWritten(currentPlatform, currentSocialUrl));
      isPanelOpen := true;
      indicatorText := IndicatorText(isPanelOpen);
      ShowPauseOverlay();
    }

    /** closePanel: the panel's elements go away; the dropdown flag is left as it was. */
    method ClosePanel()
      requires Valid()
      modifies this
      ensures Valid()
      ensures !isPanelOpen && panel == None && indicatorText == "Open ReelsMaxing"
      ensures wasGenerating == old(wasGenerating) && interval == old(interval)
      ensures isDropdownOpen == old(isDropdownOpen)
      ensures currentPlatform == old(currentPlatform) && currentSocialUrl == old(currentSocialUrl)
    {
      panel := None;
      isPanelOpen := false;
      indicatorText := IndicatorText(isPanelOpen);
    }

    /** togglePanel: the open flag alternates, and the indicator offers the opposite action. */
    method TogglePanel()
      requires Valid()
      modifies this
      ensures Valid()
      ensures isPanelOpen == !old(isPanelOpen)
      ensures indicatorText == "Close ReelsMaxing" <==> isPanelOpen
      ensures old(isPanelOpen) ==> panel == None
      ensures !old(isPanelOpen) ==> panel == Some(PausedPanel(OpenedPanelAsWritten(currentPlatform, currentSocialUrl)))
      ensures wasGenerating == old(wasGenerating) && interval == old(interval)
      ensures isDropdownOpen == old(isDropdownOpen)
      ensures currentPlatform == old(currentPlatform) && currentSocialUrl == old(currentSocialUrl)
    {
      if isPanelOpen {
        ClosePanel();
      } else {
        CreatePanel();
      }
    }

    /**
     * A click on the indicator runs togglePanel. When it opens the panel, createPanel
     * has just registered the document's outside-click listener, and the same click
     * then reaches it with a target outside the selector, so the dropdown flag ends
     * false. Closing removes that listener first, so a closing click stops there.
     */
    method OnIndicatorClick()
      requires Valid()
      modifies this
      ensures Valid()
      ensures isPanelOpen == !old(isPanelOpen)
      ensures old(isPanelOpen) ==> panel == None && isDropdownOpen == old(isDropdownOpen)
      ensures !old(isPanelOpen) ==> !isDropdownOpen
      ensures !old(isPanelOpen) ==>
        panel == Some(PausedPanel(OpenedPanelAsWritten(currentPlatform, currentSocialUrl))) && !panel.value.dropdownOpen
      ensures wasGenerating == old(wasGenerating) && interval == old(interval)
      ensures currentPlatform == old(currentPlatform) && currentSocialUrl == old(currentSocialUrl)
    {
      var wasOpen := isPanelOpen;
      TogglePanel();
      if !wasOpen {
        HandleOutsideClick(false);
      }
    }

    /**
     * selectPlatform: the platform and its address are always recorded; with a panel,
     * the address is saved in the frame and loaded only when the reels are not paused.
     */
    method SelectPlatform(value: string, url: string, caption: string)
      requires Valid()
      modifies this
      ensures Valid()
      ensures currentPlatform == value && currentSocialUrl == url
      ensures panel == if old(panel).Some? then Some(PlatformSelected(old(panel).value, value, url, caption)) else None
      ensures wasGenerating == old(wasGenerating) && interval == old(interval)
      ensures isPanelOpen == old(isPanelOpen) && indicatorText == old(indicatorText)
      ensures isDropdownOpen == old(isDropdownOpen)
    {
      currentPlatform := value;
      currentSocialUrl := url;
      if panel.Some? {
        panel := Some(PlatformSelected(panel.value, value, url, caption));
      }
    }

    /** toggleDropdown: the open flag flips, and the panel's dropdown follows it. */
    method ToggleDropdown()
      requires Valid()
      modifies this
      ensures Valid()
      ensures isDropdownOpen == !old(isDropdownOpen)
      ensures panel == if old(panel).Some? then Some(old(panel).value.(dropdownOpen := isDropdownOpen)) else None
      ensures wasGenerating == old(wasGenerating) && interval == old(interval)
      ensures isPanelOpen == old(isPanelOpen) && indicatorText == old(indicatorText)
      ensures currentPlatform == old(currentPlatform) && currentSocialUrl == old(currentSocialUrl)
    {
      isDropdownOpen := !isDropdownOpen;
      if panel.Some? {
        panel := Some(panel.value.(dropdownOpen := isDropdownOpen));
      }
    }

    /** closeDropdown: always leaves the dropdown closed. */
    method CloseDropdown()
      requires Valid()
      modifies this
      ensures Valid()
      ensures !isDropdownOpen
      ensures panel == if old(panel).Some? then Some(old(panel).value.(dropdownOpen := false)) else None
      ensures wasGenerating == old(wasGenerating) && interval == old(interval)
      ensures isPanelOpen == old(isPanelOpen) && indicatorText == old(indicatorText)
      ensures currentPlatform == old(currentPlatform) && currentSocialUrl == old(currentSocialUrl)
    {
      isDropdownOpen := false;
      if panel.Some? {
        panel := Some(panel.value.(dropdownOpen := false));
      }
    }

    /** The frame's load event hides the loading message. */
    method OnFrameLoad()
      requires Valid()
      modifies this
      ensures Valid()
      ensures panel == if old(panel).Some? then Some(old(panel).value.(loadingShown := false)) else None
      ensures wasGenerating == old(wasGenerating) && interval == old(interval)
      ensures isPanelOpen == old(isPanelOpen) && indicatorText == old(indicatorText)
      ensures isDropdownOpen == old(isDropdownOpen)
      ensures currentPlatform == old(currentPlatform) && currentSocialUrl == old(currentSocialUrl)
    {
      if panel.Some? {
        panel := Some(panel.value.(loadingShown := false));
      }
    }

    /** handleOutsideClick: a click outside the selector button and dropdown of an open panel closes the dropdown. */
    method HandleOutsideClick(onSelectorControls: bool)
      requires Valid()
      modifies this
      ensures Valid()
      ensures isDropdownOpen == (old(isDropdownOpen) && (old(panel).None? || onSelectorControls))
      ensures panel == if old(panel).Some? && !onSelectorControls then Some(old(panel).value.(dropdownOpen := false)) else old(panel)
      ensures wasGenerating == old(wasGenerating) && interval == old(interval)
      ensures isPanelOpen == old(isPanelOpen) && indicatorText == old(indicatorText)
      ensures currentPlatform == old(currentPlatform) && currentSocialUrl == old(currentSocialUrl)
    {
      if panel.Some? && !onSelectorControls {
        CloseDropdown();
      }
    }
  }
}
