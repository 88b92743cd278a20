/**
 * The extension's side panel (extension/sidepanel.js): a receiver that embeds the
 * chosen platform in a frame and shows or hides its pause overlay on command.
 */
module SidePanel {
  import opened Wrappers
  import opened Menu

  const SocialOptions: seq<MenuOption> := [
    MenuOption("instagram", "Instagram", "https://www.instagram.com/reels/"),
    MenuOption("tiktok", "TikTok", "https://www.tiktok.com/foryou"),
    MenuOption("youtube", "YouTube", "https://www.youtube.com/shorts"),
    MenuOption("twitter", "X (Twitter)", "https://x.com/home"),
    MenuOption("reddit", "Reddit", "https://www.reddit.com"),
    MenuOption("snapchat", "Snapchat", "https://www.snapchat.com/spotlight"),
    MenuOption("facebook", "Facebook", "https://www.facebook.com/reel/")
  ]

  /** updateStatus's label: "Ready", "Generating...", and "Paused" for any other status. */
  function StatusText(status: string): (text: string)
    ensures text == "Ready" <==> status == "ready"
    ensures text == "Generating..." <==> status == "generating"
    ensures status != "ready" && status != "generating" ==> text == "Paused"
  {
    if status == "ready" then "Ready"
    else if status == "generating" then "Generating..."
    else "Paused"
  }

  /**
   * A message from the background worker. `socialUrl` is "" when absent (or empty,
   * which JavaScript treats the same); `isPaused` is the truthiness of the field.
   */
  datatype Message = Message(kind: string, socialUrl: string, isPaused: bool)

  /** What the panel sends out. */
  datatype Outgoing = SetSocialUrl(url: string) | SidepanelReady

  /** The paused flag a message imposes, if it concerns playback at all. */
  function MessagePause(m: Message): (paused: Option<bool>)
    ensures m.kind == "PAUSE_REELS" || m.kind == "PAUSE_SIDEPANEL" ==> paused == Some(true)
    ensures m.kind == "PLAY_REELS" || m.kind == "PLAY_SIDEPANEL" ==> paused == Some(false)
    ensures m.kind == "INIT_STATE" ==> paused == Some(m.isPaused)
    ensures paused.None? <==>
      m.kind !in {"PAUSE_REELS", "PAUSE_SIDEPANEL", "PLAY_REELS", "PLAY_SIDEPANEL", "INIT_STATE"}
  {
    if m.kind == "PAUSE_REELS" || m.kind == "PAUSE_SIDEPANEL" then Some(true)
    else if m.kind == "PLAY_REELS" || m.kind == "PLAY_SIDEPANEL" then Some(false)
    else if m.kind == "INIT_STATE" then Some(m.isPaused)
    else None
  }

  /** The paused flag after handling `messages` in order, starting from `paused`. */
  function PausedAfter(paused: bool, messages: seq<Message>): bool
    decreases |messages|
  {
    if messages == [] then paused
    else PausedAfter(MessagePause(messages[0]).GetOr(paused), messages[1..])
  }

  /** `k` is the last message that concerns playback. */
  ghost predicate IsLastPlaybackMessage(messages: seq<Message>, k: int) {
    && 0 <= k < |messages|
    && MessagePause(messages[k]).Some?
    && forall j :: k < j < |messages| ==> MessagePause(messages[j]).None?
  }

  /** One more message: the flag is the one it imposes, or unchanged. */
  lemma {:induction false} PausedAfterSnoc(paused: bool, messages: seq<Message>, m: Message)
    ensures PausedAfter(paused, messages + [m]) == MessagePause(m).GetOr(PausedAfter(paused, messages))
    decreases |messages|
  {
    if messages != [] {
      assert (messages + [m])[0] == messages[0];
      assert (messages + [m])[1..] == messages[1..] + [m];
      PausedAfterSnoc(MessagePause(messages[0]).GetOr(paused), messages[1..], m);
    }
  }

  /**
   * The last message wins: the panel is paused exactly as the last pause, play or
   * init message said, and keeps its flag when no such message arrived.
   */
  lemma {:induction false} LastPlaybackMessageWins(paused: bool, messages: seq<Message>)
    ensures (forall j :: 0 <= j < |messages| ==> MessagePause(messages[j]).None?) ==>
      PausedAfter(paused, messages) == paused
    ensures forall k :: IsLastPlaybackMessage(messages, k) ==>
      PausedAfter(paused, messages) == MessagePause(messages[k]).value
    decreases |messages|
  {
    if messages != [] {
      var init, m := messages[..|messages| - 1], messages[|messages| - 1];
      assert messages == init + [m];
      PausedAfterSnoc(paused, init, m);
      LastPlaybackMessageWins(paused, init);
      forall k | IsLastPlaybackMessage(messages, k)
        ensures PausedAfter(paused, messages) == MessagePause(messages[k]).value
      {
        if k < |messages| - 1 {
          assert IsLastPlaybackMessage(init, k);
        }
      }
    }
  }

  class SidePanelView {
    /** The options the dropdown is built from. */
    const options: seq<MenuOption>

    var currentPlatform: string
    var isPaused: bool
    var isDropdownOpen: bool
    var frameSrc: string
    var selectedLabel: string
    var overlayVisible: bool
    /** The status dot's class list. */
    var statusClass: string
    var statusText: string
    var loadingShown: bool
    /** The dropdown options' `selected` flags, one per option. */
    var selected: seq<bool>
    /** Messages sent to the background worker, in order. */
    var outbox: seq<Outgoing>

    /** The overlay and the status always agree with the paused flag; one flag per option. */
    ghost predicate Valid()
      reads this
    {
      && overlayVisible == isPaused
      && statusText == (if isPaused then "Paused" else "Generating...")
      && statusClass == "status-dot " + (if isPaused then "paused" else "generating")
      && |selected| == |options|
    }

    /**
     * Script load: the dropdown is built for "instagram", the panel starts paused,
     * and SIDEPANEL_READY is sent. The frame's address, the label and the loading
     * indicator come from the page's markup.
     */
    constructor (frameSrc0: string, selectedLabel0: string, loadingShown0: bool)
      ensures Valid() && options == SocialOptions
      ensures currentPlatform == "instagram" && isPaused && !isDropdownOpen
      ensures selected == Selection(options, "instagram")
      ensures frameSrc == frameSrc0 && selectedLabel == selectedLabel0 && loadingShown == loadingShown0
      ensures outbox == [SidepanelReady]
    {
      options := SocialOptions;
      currentPlatform := "instagram";
      isDropdownOpen := false;
      frameSrc, selectedLabel, loadingShown := frameSrc0, selectedLabel0, loadingShown0;
      selected := Selection(SocialOptions, "instagram");
      isPaused := true;
      overlayVisible := true;
      statusClass := "status-dot paused";
      statusText := "Paused";
      outbox := [SidepanelReady];
    }

    method ToggleDropdown()
      modifies this
      ensures isDropdownOpen == !old(isDropdownOpen)
      ensures currentPlatform == old(currentPlatform) && isPaused == old(isPaused) && frameSrc == old(frameSrc)
      ensures selectedLabel == old(selectedLabel) && overlayVisible == old(overlayVisible)
      ensures statusClass == old(statusClass) && statusText == old(statusText)
      ensures loadingShown == old(loadingShown) && selected == old(selected) && outbox == old(outbox)
    {
      isDropdownOpen := !isDropdownOpen;
    }

    method CloseDropdown()
      modifies this
      ensures !isDropdownOpen
      ensures currentPlatform == old(currentPlatform) && isPaused == old(isPaused) && frameSrc == old(frameSrc)
      ensures selectedLabel == old(selectedLabel) && overlayVisible == old(overlayVisible)
      ensures statusClass == old(statusClass) && statusText == old(statusText)
      ensures loadingShown == old(loadingShown) && selected == old(selected) && outbox == old(outbox)
    {
      isDropdownOpen := false;
    }

    /**
     * selectPlatform: the value is always recorded; a known value also relabels the
     * button, marks exactly its option, shows the loader, loads its address and
     * tells the background worker.
     */
    method SelectPlatform(value: string)
      requires Valid()
      modifies this
      ensures Valid()
      ensures currentPlatform == value
      ensures FindOption(options, value).None? ==>
        selectedLabel == old(selectedLabel) && selected == old(selected) && loadingShown == old(loadingShown) &&
        frameSrc == old(frameSrc) && outbox == old(outbox)
      ensures FindOption(options, value).Some? ==>
        var option := FindOption(options, value).value;
        selectedLabel == option.caption && selected == Selection(options, value) && loadingShown &&
        frameSrc == option.url && outbox == old(outbox) + [SetSocialUrl(option.url)]
      ensures isPaused == old(isPaused) && isDropdownOpen == old(isDropdownOpen)
      ensures overlayVisible == old(overlayVisible) && statusText == old(statusText) && statusClass == old(statusClass)
    {
      currentPlatform := value;
      var option := FindOption(options, value);
      if option.None? {
        return;
      }
      selectedLabel := option.value.caption;
      selected := Selection(options, value);
      loadingShown := true;
      frameSrc := option.value.url;
      outbox := outbox + [SetSocialUrl(option.value.url)];
    }

    method UpdateStatus(status: string)
      modifies this
      ensures statusClass == "status-dot " + status && statusText == StatusText(status)
      ensures isPaused == old(isPaused) && overlayVisible == old(overlayVisible)
      ensures currentPlatform == old(currentPlatform) && frameSrc == old(frameSrc)
      ensures selectedLabel == old(selectedLabel) && isDropdownOpen == old(isDropdownOpen)
      ensures loadingShown == old(loadingShown) && selected == old(selected) && outbox == old(outbox)
    {
      statusClass := "status-dot " + status;
      statusText := StatusText(status);
    }

    method ShowPause()
      requires |selected| == |options|
      modifies this
      ensures Valid() && isPaused
      ensures currentPlatform == old(currentPlatform) && frameSrc == old(frameSrc)
      ensures selectedLabel == old(selectedLabel) && isDropdownOpen == old(isDropdownOpen)
      ensures loadingShown == old(loadingShown) && selected == old(selected) && outbox == old(outbox)
    {
      isPaused := true;
      overlayVisible := true;
      UpdateStatus("paused");
    }

    method HidePause()
      requires |selected| == |options|
      modifies this
      ensures Valid() && !isPaused
      ensures currentPlatform == old(currentPlatform) && frameSrc == old(frameSrc)
      ensures selectedLabel == old(selectedLabel) && isDropdownOpen == old(isDropdownOpen)
      ensures loadingShown == old(loadingShown) && selected == old(selected) && outbox == old(outbox)
    {
      isPaused := false;
      overlayVisible := false;
      UpdateStatus("generating");
    }

    /**
     * The message listener. Playback follows MessagePause; INIT_STATE with an
     * address of a known option also switches platform, label and frame, but leaves
     * the dropdown's flags, the loader and the outbox as they were.
     */
    method OnMessage(m: Message)
      requires Valid()
      modifies this
      ensures Valid()
      ensures isPaused == MessagePause(m).GetOr(old(isPaused))
      ensures m.kind == "INIT_STATE" && m.socialUrl != "" && FindByUrl(options, m.socialUrl).Some? ==>
        var option := FindByUrl(options, m.socialUrl).value;
        currentPlatform == option.value && selectedLabel == option.caption && frameSrc == option.url
      ensures !(m.kind == "INIT_STATE" && m.socialUrl != "" && FindByUrl(options, m.socialUrl).Some?) ==>
        currentPlatform == old(currentPlatform) && selectedLabel == old(selectedLabel) && frameSrc == old(frameSrc)
      ensures MessagePause(m).None? ==>
        overlayVisible == old(overlayVisible) && statusText == old(statusText) && statusClass == old(statusClass)
      ensures isDropdownOpen == old(isDropdownOpen) && loadingShown == old(loadingShown)
      ensures selected == old(selected) && outbox == old(outbox)
    {
      if m.kind == "PAUSE_REELS" || m.kind == "PAUSE_SIDEPANEL" {
        ShowPause();
      }
      if m.kind == "PLAY_REELS" || m.kind == "PLAY_SIDEPANEL" {
        HidePause();
      }
      if m.kind == "INIT_STATE" {
        if m.socialUrl != "" {
          var option := FindByUrl(options, m.socialUrl);
          if option.Some? {
            currentPlatform := option.value.value;
            selectedLabel := option.value.caption;
            frameSrc := option.value.url;
          }
        }
        if m.isPaused {
          ShowPause();
        } else {
          HidePause();
        }
      }
    }

    /** The frame's load event hides the loader. */
    method OnFrameLoad()
      modifies this
      ensures !loadingShown
      ensures isPaused == old(isPaused) && overlayVisible == old(overlayVisible) && statusText == old(statusText)
      ensures currentPlatform == old(currentPlatform) && frameSrc == old(frameSrc) && selected == old(selected)
      ensures outbox == old(outbox) && isDropdownOpen == old(isDropdownOpen)
      ensures selectedLabel == old(selectedLabel) && statusClass == old(statusClass)
    {
      loadingShown := false;
    }

    /** A click on an option: select its value, then close the dropdown. */
    method OnOptionClick(value: string)
      requires Valid()
      modifies this
      ensures Valid()
      ensures currentPlatform == value && !isDropdownOpen
      ensures FindOption(options, value).None? ==>
        selectedLabel == old(selectedLabel) && selected == old(selected) && loadingShown == old(loadingShown) &&
        frameSrc == old(frameSrc) && outbox == old(outbox)
      ensures FindOption(options, value).Some? ==>
        var option := FindOption(options, value).value;
        selectedLabel == option.caption && selected == Selection(options, value) && loadingShown &&
        frameSrc == option.url && outbox == old(outbox) + [SetSocialUrl(option.url)]
      ensures isPaused == old(isPaused) && overlayVisible == old(overlayVisible)
      ensures statusText == old(statusText) && statusClass == old(statusClass)
    {
      SelectPlatform(value);
      CloseDropdown();
    }

    /** A document click closes the dropdown unless it landed on the button or the dropdown. */
    method OnDocumentClick(onSelectControls: bool)
      modifies this
      ensures isDropdownOpen == (old(isDropdownOpen) && onSelectControls)
      ensures currentPlatform == old(currentPlatform) && isPaused == old(isPaused) && frameSrc == old(frameSrc)
      ensures selected == old(selected) && outbox == old(outbox) && overlayVisible == old(overlayVisible)
      ensures selectedLabel == old(selectedLabel) && statusText == old(statusText) && statusClass == old(statusClass)
      ensures loadingShown == old(loadingShown)
    {
      if !onSelectControls {
        CloseDropdown();
      }
    }
  }
}
