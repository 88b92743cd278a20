# ReelsMaxing in Dafny

ReelsMaxing plays short videos (reels) next to an AI chat while the AI is
generating a response. When the answer is ready, it pauses them. It polls the chat page for a
visible "stop generating" control, turns changes of that signal into edges,
and sends pause and play commands to a video surface. The logic is written
three times:

- the browser extension's content script for chat pages, which drives a side
  panel whose frame is blanked to pause and reloaded to resume;
- the plain Electron renderer, which drives a reels webview;
- the React Electron app, which drives a reels webview and a three-valued status.

Two receivers obey the commands: the extension's side panel and the Instagram
content script.

The model is organised as follows:

- `wrappers.dfy`, `text.dfy` (JavaScript `includes` and `join`) and `page.dfy`:
  the page is an oracle that maps each selector to its matching elements, or to
  an exception. Each element carries its computed style and bounding box.
- `registry.dfy`: the ordered first-substring-match lookup that every front end
  uses for its provider table.
- `debouncer.dfy`: edges over a run of samples, and their count (the number of
  sign changes).
- `desktop.dfy`: what `renderer.js` and `App.tsx` share. This is the LLM
  configuration table, the first-match probe script, the width clamp, and the
  pause/play step guarded by `isPaused`.
- `content_llm.dfy`, `renderer.dfy`, `app.dfy`, `sidepanel.dfy`,
  `content_instagram.dfy`: one module per script. Each script's module-level
  variables are a class whose methods are the script's handlers. Each method's
  new state is tied to pure step functions, and the lemmas about runs of ticks
  are stated over those functions.
- `menu.dfy`: the `{ value, label, url }` option lists and their lookups.
- `variants.dfy`: where the extension's probe and the desktop probe disagree,
  with a concrete page for each direction.

Behaviours of the code worth noting:

- `renderer.js` starts with `isPaused` false, not paused. Its first start edge
  therefore sends nothing (`Renderer.InitialRunSkipsFirstEdge`).
- No front end forces the paused state on a platform switch. Each front end
  drives exactly one surface, and there is no registry of surfaces.
- `createPanel` labels the platform button "Instagram" whatever the current
  platform is; `ContentLlm.LlmPage.CreatePanel` builds the panel that way (see
  Findings).
- The indicator click that opens the extension's panel also reaches the
  document listener `createPanel` has just registered, so the dropdown flag is
  always false after the panel opens (`ContentLlm.LlmPage.OnIndicatorClick`).
- In `App.tsx`, "pause on load" sends the pause script without touching
  `isPaused`.
- The extension's ChatGPT fallback queries are not guarded per rule. An
  exception there escapes the probe and stops monitoring for good.

## Model

| member | source | states |
|---|---|---|
| Text.Includes | extension/content-llm.js:58 | `s.includes(sub)` holds iff `sub` occurs at some position of `s` |
| Text.Join | desktop-app/src/App.tsx:6 | joining no parts gives the empty string, and one part gives that part unchanged |
| Text.JoinAppend | desktop-app/src/App.tsx:6 | joining two non-empty lists puts exactly one separator between their joins |
| Registry.FirstMatch | extension/content-llm.js:55-63 | the result is the first entry, in declaration order, whose key the string includes; None means no key is included |
| Registry.FindFirst | desktop-app/renderer.js:88-93 | the table scan with early return finds exactly `FirstMatch` |
| Registry.AppendKeepsLookup | extension/content-llm.js:26-53 | appending providers never changes an existing match; a string that did not match now tries the new entries |
| Page.Document.QueryFirst | desktop-app/renderer.js:107 | `querySelector` throws iff `querySelectorAll` does, finds nothing iff there are no matches, and otherwise returns the first match |
| Debouncer.EdgeOf | desktop-app/renderer.js:187-203 | an edge exists iff the sample differs from the previous one, and it is a start iff the new sample is true |
| Debouncer.EdgesSnoc | desktop-app/renderer.js:184-206 | one more tick appends exactly that tick's edge to the run's edges |
| Debouncer.EdgesCountChanges | desktop-app/renderer.js:184-206 | the number of edges over any run equals the number of sign changes of the sampled signal |
| Debouncer.EdgesAlternate | desktop-app/renderer.js:184-206 | edges alternate, starting with the opposite of the initial value, and the last remembered sample decides the parity |
| Desktop.ConfigFor | desktop-app/renderer.js:86-94 | the configuration of the first domain the address includes, the chatgpt.com one when none does, so it is always a table entry and the lookup never fails |
| Desktop.LookupConfig | desktop-app/src/App.tsx:154-159 | the loop over the table returns exactly `ConfigFor` |
| Desktop.RunProbeScript | desktop-app/renderer.js:102-121 | the probe script returns true iff the first match of some selector is displayed, not hidden, and has positive width and height; a throwing selector is skipped |
| Desktop.ProbeVisible | desktop-app/renderer.js:109-113 | the desktop test holds iff the element can be measured, is displayed, not hidden, and has positive width and height; opacity is not read |
| Desktop.ClampWidth | desktop-app/renderer.js:243 | the clamped width lies in [min, max], equals the input when the input is in range, and is the violated bound otherwise |
| Desktop.TickCommand | desktop-app/renderer.js:187-203 | play is issued iff a false-to-true change finds the reels paused; pause is issued iff a true-to-false change finds them playing |
| Desktop.TickState | desktop-app/renderer.js:205 | after a tick the remembered sample is the sample, unconditionally |
| Desktop.RunNeverPausedWhileGenerating | desktop-app/renderer.js:184-206 | over any run, the reels are never left paused while the last sample was "generating" |
| Desktop.SyncedRunFollowsEdges | desktop-app/src/App.tsx:265-286 | from a state where paused means idle, every edge issues exactly one command (play for a start, pause for a finish), the state stays synced, and the number of commands is the number of sign changes |
| Desktop.SteadyRunIssuesNothing | desktop-app/renderer.js:184-206 | repeated identical samples issue no command and leave the state unchanged |
| Renderer.PlatformFor | desktop-app/renderer.js:219-225 | a platform is found only under exactly its key; an unknown key yields none |
| Renderer.LlmUrl | desktop-app/renderer.js:86 | the address matched is the view's src, or the selector's value when src is empty; it is empty only when both are |
| Renderer.GetCurrentLLM | desktop-app/renderer.js:86-94 | the configuration is `ConfigFor` of the view's src, or of the selector value when src is empty |
| Renderer.CheckGenerating | desktop-app/renderer.js:97-127 | the answer is the probe script's, and false when `executeJavaScript` fails |
| Renderer.LabelFor | desktop-app/renderer.js:210-216 | the label is the name of the first matching domain, else "Chat" |
| Renderer.InitialRunSkipsFirstEdge | desktop-app/renderer.js:15-17 | from the initial idle, playing state, the commands are those of all edges but the first, so their count is the number of changes minus one (or zero) |
| Renderer.RendererWindow.constructor | desktop-app/renderer.js:15-17 | initially not generating, not paused, not monitoring, and no commands |
| Renderer.RendererWindow.PauseReels | desktop-app/renderer.js:130-153 | a no-op when paused; otherwise paused before the script is sent, overlay and status set, and still paused if the script fails |
| Renderer.RendererWindow.PlayReels | desktop-app/renderer.js:156-178 | a no-op when playing; otherwise playing whether or not the play script succeeds |
| Renderer.RendererWindow.StartMonitoring | desktop-app/renderer.js:181-182 | monitoring afterwards; a call while monitoring changes nothing at all, and a first call changes only the monitoring flag |
| Renderer.RendererWindow.OnLlmViewReady | desktop-app/renderer.js:253-256 | the LLM view becoming ready starts monitoring and changes nothing else; when already monitoring it changes nothing |
| Renderer.RendererWindow.OnReelsViewReady | desktop-app/renderer.js:258-261 | the reels view becoming ready sets the status text and every other field stays |
| Renderer.RendererWindow.Tick | desktop-app/renderer.js:184-206 | before monitoring starts nothing changes; otherwise playback follows `TickState`, exactly `TickCommand`'s command is sent, the status text follows the edge, and the invariant "never paused while generating" is kept |
| Renderer.RendererWindow.OnSample | desktop-app/renderer.js:187-205 | the interval callback after the probe: playback follows `TickState`, exactly `TickCommand`'s command is sent, the status text follows the edge, the invariant is kept, and the other fields stay |
| Renderer.RendererWindow.OnLlmSelectorChange | desktop-app/renderer.js:210-216 | the LLM view loads the chosen address, the selector holds it, the label becomes `LabelFor` of it, and every other field stays |
| Renderer.RendererWindow.OnSocialSelectorChange | desktop-app/renderer.js:219-225 | a known platform's address is loaded in the reels view and nothing else changes; an unknown key changes nothing at all |
| Renderer.RendererWindow.OnMouseDown | desktop-app/renderer.js:232-237 | resizing starts from the mouse position and the panel's current width; the width and every non-resize field stay |
| Renderer.RendererWindow.OnMouseMove | desktop-app/renderer.js:239-245 | ignored (nothing changes) unless resizing; otherwise the width is `min(max(startWidth + startX - clientX, 320), 600)`, lies in [320, 600], and is the only field that changes |
| Renderer.RendererWindow.OnMouseUp | desktop-app/renderer.js:247-250 | resizing stops and every other field, the width included, stays |
| App.Kept | desktop-app/src/App.tsx:5-7 | the kept arguments are non-empty strings; none are kept iff no argument is truthy; a single argument is kept iff truthy |
| App.KeptAppend | desktop-app/src/App.tsx:5-7 | filtering distributes over concatenation, so the truthy arguments keep their original order |
| App.Cn | desktop-app/src/App.tsx:5-7 | the merged class string is empty iff no argument is truthy |
| App.CnAppend | desktop-app/src/App.tsx:5-7 | merging two groups joins their merges with a single space, or keeps whichever is non-empty |
| App.ReelsViewSrc | desktop-app/src/App.tsx:414 | the reels webview shows the chosen platform's address, or Instagram's for an unknown value |
| App.ProviderUrl | desktop-app/src/App.tsx:148-153 | the address detection matches against is the chosen provider option's address, or "" when no option has the value |
| App.LlmViewSrc | desktop-app/src/App.tsx:373 | the LLM webview shows the chosen provider option's address, or chatgpt.com when no option has the value |
| App.GetCurrentLLMConfig | desktop-app/src/App.tsx:152-160 | the configuration is `ConfigFor` of the selected provider's address, or of "" for an unknown provider |
| App.ConfigAt | desktop-app/src/App.tsx:152-160 | an address holding the i-th domain, and lacking some character of every earlier domain, is detected with the i-th configuration |
| App.ProviderUrlOfOption | desktop-app/src/App.tsx:9-13 | selecting the i-th provider value yields that option's own address (`find` meets no earlier option with the same value) |
| App.ChatGptUrlConfig | desktop-app/src/App.tsx:152-160 | the chatgpt option's address is detected with the chatgpt.com configuration |
| App.ClaudeUrlConfig | desktop-app/src/App.tsx:152-160 | the claude option's address is detected with the claude.ai configuration, not the chatgpt.com one |
| App.GeminiUrlConfig | desktop-app/src/App.tsx:152-160 | the gemini option's address is detected with the gemini.google.com configuration |
| App.ProviderGetsOwnConfig | desktop-app/src/App.tsx:9-13 | each menu provider gets the table entry at its own position |
| App.DetectionFollowsShownPage | desktop-app/src/App.tsx:371-376 | for every provider value, detection uses the configuration of the page the LLM webview shows (an unknown provider shows chatgpt.com and is probed as ChatGPT) |
| App.CheckGenerating | desktop-app/src/App.tsx:163-194 | false without an LLM view or when the script fails; otherwise the probe script's answer |
| App.TickStatus | desktop-app/src/App.tsx:266-283 | a play sets "ready", a pause sets "paused", and an uncommanded start sets "generating" |
| App.SyncedStatusSettles | desktop-app/src/App.tsx:266-283 | from a synced state, the status after any run is "ready" while generating and "paused" otherwise, and never "generating" |
| App.InitialRunFollowsEdges | desktop-app/src/App.tsx:137-138 | from the initial paused state, commands are exactly the edges' commands, their number is the number of changes, the paused flag means "idle", and "generating" never survives a tick |
| App.ReelsApp.constructor | desktop-app/src/App.tsx:135-146 | initial status "paused", paused, width 400, not generating |
| App.ReelsApp.PauseReels | desktop-app/src/App.tsx:197-216 | a no-op when paused; otherwise paused with status "paused", and the script is sent only to a mounted view |
| App.ReelsApp.PlayReels | desktop-app/src/App.tsx:219-238 | a no-op when playing; otherwise playing with status "ready", and the script is sent only to a mounted view |
| App.ReelsApp.Tick | desktop-app/src/App.tsx:266-283 | playback follows `TickState`, status follows `TickStatus`, the remembered sample becomes the sample, and the synced, settled invariant is kept |
| App.ReelsApp.PauseOnLoad | desktop-app/src/App.tsx:241-262 | the pause script is sent to a mounted view whatever the paused flag says; no other field changes, so the synced, settled invariant is kept |
| App.ReelsApp.SelectLlm | desktop-app/src/App.tsx:364-369 | only the provider changes; status, playback, commands, width and the resize fields stay |
| App.ReelsApp.SelectSocial | desktop-app/src/App.tsx:402-407 | only the platform changes; status, playback, commands, width and the resize fields stay |
| App.ReelsApp.OnResizeStart | desktop-app/src/App.tsx:311-316 | resizing starts from the mouse position and the current width |
| App.ReelsApp.OnMouseMove | desktop-app/src/App.tsx:290-295 | ignored unless resizing; otherwise the width is clamped to [350, 600] |
| App.ReelsApp.OnMouseUp | desktop-app/src/App.tsx:297-300 | resizing stops |
| Menu.FindOption | desktop-app/src/App.tsx:148 | a found option is in the list and carries the value; none means no option has it; the first option is preferred (the general first-match statement is `FindOptionIsFirst`) |
| Menu.FindOptionIsFirst | desktop-app/src/App.tsx:148 | `find` by value returns the option at the first position carrying the value |
| Menu.FindByUrl | extension/sidepanel.js:128 | a found option is in the list and carries the address; none means no option has it |
| Menu.FindByUrlIsFirst | extension/sidepanel.js:128 | `find` by address returns the option at the first position carrying the address |
| Menu.Selection | extension/sidepanel.js:71-73 | exactly the options with the chosen value are marked selected |
| SidePanel.StatusText | extension/sidepanel.js:82-91 | "Ready" iff "ready", "Generating..." iff "generating", and "Paused" for anything else |
| SidePanel.MessagePause | extension/sidepanel.js:117-142 | PAUSE_* imposes paused, PLAY_* imposes playing, INIT_STATE imposes its flag, and every other message leaves playback alone |
| SidePanel.LastPlaybackMessageWins | extension/sidepanel.js:117-142 | after any message sequence, the panel is paused exactly as the last pause, play or init message said, and unchanged if none arrived |
| SidePanel.SidePanelView.constructor | extension/sidepanel.js:144-151 | the panel starts on Instagram, paused, with the dropdown closed, and SIDEPANEL_READY sent |
| SidePanel.SidePanelView.ToggleDropdown | extension/sidepanel.js:52-56 | the dropdown flag flips and nothing else changes |
| SidePanel.SidePanelView.CloseDropdown | extension/sidepanel.js:58-62 | the dropdown is closed and nothing else changes |
| SidePanel.SidePanelView.SelectPlatform | extension/sidepanel.js:64-80 | the value is always recorded; an unknown value changes nothing else; a known one sets label, selection, loader and frame address, and sends SET_SOCIAL_URL |
| SidePanel.SidePanelView.UpdateStatus | extension/sidepanel.js:82-91 | the dot's class and the status label follow the status |
| SidePanel.SidePanelView.ShowPause | extension/sidepanel.js:93-97 | paused, overlay shown, status "Paused" |
| SidePanel.SidePanelView.HidePause | extension/sidepanel.js:99-103 | playing, overlay hidden, status "Generating..." |
| SidePanel.SidePanelView.OnMessage | extension/sidepanel.js:117-142 | the paused flag follows `MessagePause`; INIT_STATE with a known address switches platform, label and frame, but not the dropdown's selection flags |
| SidePanel.SidePanelView.OnFrameLoad | extension/sidepanel.js:27-29 | the loader is hidden and every other field stays |
| SidePanel.SidePanelView.OnOptionClick | extension/sidepanel.js:44-49 | the dropdown closes and the value is recorded; an unknown value changes nothing else; a known one sets label, selection, loader and frame address and sends SET_SOCIAL_URL; playback and status stay |
| SidePanel.SidePanelView.OnDocumentClick | extension/sidepanel.js:110-114 | a click outside the selector closes the dropdown; one inside leaves it as it was; every other field stays |
| ContentInstagram.Overlay.constructor | extension/content-instagram.js:18-19 | a new overlay is detached and has no display set |
| ContentInstagram.CallsOn | extension/content-instagram.js:72-78 | pause is called on exactly the playing videos and play on exactly the paused ones, once each, in document order |
| ContentInstagram.SettledVideosGetNoCalls | extension/content-instagram.js:72-78 | a pass over videos that are already in the target state makes no call |
| ContentInstagram.ReelController.constructor | extension/content-instagram.js:11-12 | not paused, no overlay |
| ContentInstagram.ReelController.CreateOverlay | extension/content-instagram.js:15-62 | the first call builds the overlay, and every later call returns the same one |
| ContentInstagram.ReelController.PauseReel | extension/content-instagram.js:65-90 | every video ends paused, only the playing ones get a pause call, the controller is paused iff it was or a video exists, and the overlay is attached and shown only then |
| ContentInstagram.ReelController.PlayReel | extension/content-instagram.js:93-111 | the overlay is hidden, only the paused videos get a play call, and the controller is playing unconditionally |
| ContentInstagram.ReelController.OnMessage | extension/content-instagram.js:114-128 | PAUSE_REELS runs the pause pass (every video paused, calls as `CallsOn`) and PLAY_REELS the play pass (overlay hidden, calls as `CallsOn`), each answering success with the paused flag after the operation; other messages get no answer and change neither the controller, the videos nor the overlay |
| ContentInstagram.ReelController.OnVideoPlay | extension/content-instagram.js:133-136 | a video's play event hides the overlay and clears the paused flag |
| ContentInstagram.InstagramWindow.constructor | extension/content-instagram.js:8 | a fresh window has not run the script |
| ContentInstagram.InstagramWindow.RunScript | extension/content-instagram.js:7-9 | only the first run in a window starts a controller, so a window has at most one |
| ContentLlm.SelectorsFor | extension/content-llm.js:55-63 | the list of the first key the hostname includes, in declaration order, and empty iff no key matches |
| ContentLlm.GetSelectors | extension/content-llm.js:55-63 | the scan returns exactly `SelectorsFor` |
| ContentLlm.IsVisible | extension/content-llm.js:88-100 | an element is visible iff it can be measured, is displayed, not hidden, not fully transparent, and has positive width and height |
| ContentLlm.AnyMatchVisible | extension/content-llm.js:69-73 | the scan of one selector's matches answers true iff some match is visible |
| ContentLlm.AnySelectorFires | extension/content-llm.js:66-75 | the scan of the selectors answers true iff some selector's query succeeds with a visible match; a throwing selector is skipped |
| ContentLlm.ProbeFallback | extension/content-llm.js:77-82 | the ChatGPT fallback is true iff the first cursor element, or else the first thinking element, is visible; an exception from either query escapes |
| ContentLlm.IsGenerating | extension/content-llm.js:65-86 | the loops return exactly `GenerationSignal`: some match of some selector is visible, or on a "chatgpt" host the first cursor or thinking element is; a throwing selector is skipped, but a throwing fallback query escapes |
| ContentLlm.UnknownHostNeverGenerating | extension/content-llm.js:62-85 | a host with no table key and no "chatgpt" is never reported as generating |
| ContentLlm.ThrowingSelectorSkipped | extension/content-llm.js:66-76 | a selector whose query throws does not stop later selectors from firing |
| ContentLlm.PausedPanel | extension/content-llm.js:656-674 | pausing shows the overlay with "Paused", blanks the frame, saves the address that was playing (keeping the saved one if the frame was already blank), and leaves the label, loader, dropdown and selection alone |
| ContentLlm.ResumedPanel | extension/content-llm.js:676-695 | resuming hides the overlay with "Generating...", and reloads the saved address with the loader shown only when one is saved; label, dropdown and selection stay |
| ContentLlm.PlatformSelected | extension/content-llm.js:600-623 | the address is always saved and the label and selection follow the choice; the frame loads it, with the loader shown, only while the overlay is hidden |
| ContentLlm.PauseIsIdempotent | extension/content-llm.js:669-673 | pausing twice equals pausing once, and the saved address survives the second pause |
| ContentLlm.PauseThenResumeRestores | extension/content-llm.js:656-695 | pausing blanks the frame, and a following resume reloads the address that was playing |
| ContentLlm.ResumeThenPauseKeepsAddress | extension/content-llm.js:656-695 | resuming and then pausing keeps the saved address for the next resume |
| ContentLlm.SelectionTakesEffectOnResume | extension/content-llm.js:600-623 | the chosen address is always saved; it is loaded at once only while the reels play, and otherwise on the next resume |
| ContentLlm.ReopenedLabelDisagrees | extension/content-llm.js:439 | as written (and as `LlmPage.CreatePanel` builds it), a panel reopened after choosing TikTok marks TikTok selected but is labelled "Instagram" |
| ContentLlm.OpenedPanelLabelAgrees | extension/content-llm.js:553-573 | corrected: a reopened panel marks exactly the current platform, and its label is that platform's label |
| ContentLlm.TickCall | extension/content-llm.js:775-787 | hide is called iff false-to-true, show iff true-to-false |
| ContentLlm.OverlayCallsAreEdges | extension/content-llm.js:767-792 | the overlay calls of any run are the edge detector's edges, hide for a start and show for a finish |
| ContentLlm.OverlayCallsCountChanges | extension/content-llm.js:775-787 | from the initial idle state, the number of overlay calls is the number of changes, and they alternate starting with a hide |
| ContentLlm.IndicatorText | extension/content-llm.js:697-703 | the indicator reads "Close ReelsMaxing" iff the panel is open, and "Open ReelsMaxing" otherwise |
| ContentLlm.LlmPage.constructor | extension/content-llm.js:6-24 | script load plus init: idle, monitoring, no panel, on Instagram, indicator offering to open |
| ContentLlm.LlmPage.StartMonitoring | extension/content-llm.js:764-767 | an interval is started only if none was ever set, even a cleared one |
| ContentLlm.LlmPage.ShowPauseOverlay | extension/content-llm.js:656-674 | with a panel, the panel becomes `PausedPanel`; without one nothing changes |
| ContentLlm.LlmPage.HidePauseOverlay | extension/content-llm.js:676-695 | with a panel, the panel becomes `ResumedPanel`; without one nothing changes |
| ContentLlm.LlmPage.Tick | extension/content-llm.js:767-792 | a cleared interval does nothing; an invalid context or an escaping exception clears it; otherwise the remembered sample becomes the signal and the overlay call is `TickCall`'s |
| ContentLlm.LlmPage.CreatePanel | extension/content-llm.js:110-551 | a no-op with a panel; otherwise the panel opens paused on the current platform, with a blank frame, the platform's address saved, exactly the current platform marked, and the label "Instagram" as written |
| ContentLlm.LlmPage.ClosePanel | extension/content-llm.js:625-646 | the panel is gone and the indicator offers to open it; the dropdown flag is left as it was |
| ContentLlm.LlmPage.TogglePanel | extension/content-llm.js:648-654 | the open flag alternates, the indicator reads "Close ReelsMaxing" iff the panel is open, closing removes the panel, and opening builds it as `CreatePanel` does |
| ContentLlm.LlmPage.OnIndicatorClick | extension/content-llm.js:761 | the indicator click toggles the panel; an opening click also reaches the outside-click listener that `createPanel` registered (content-llm.js:485), so the panel opens with the dropdown closed, while a closing click leaves the dropdown flag as it was |
| ContentLlm.LlmPage.SelectPlatform | extension/content-llm.js:600-623 | the platform and address are recorded, and an open panel becomes `PlatformSelected` |
| ContentLlm.LlmPage.ToggleDropdown | extension/content-llm.js:575-582 | the dropdown flag flips, and an open panel's dropdown follows it |
| ContentLlm.LlmPage.CloseDropdown | extension/content-llm.js:584-590 | the dropdown flag is false afterwards |
| ContentLlm.LlmPage.OnFrameLoad | extension/content-llm.js:480-482 | the frame's load hides the loading message |
| ContentLlm.LlmPage.HandleOutsideClick | extension/content-llm.js:592-598 | with a panel, a click outside the selector closes the dropdown flag and the panel's dropdown; otherwise nothing changes |
| ProbeVariants.VisibilityTestsDiffer | extension/content-llm.js:88-100 | the extension's visibility test implies the desktop one, and they differ exactly on fully transparent elements |
| ProbeVariants.DesktopFiringImpliesExtensionFiring | desktop-app/renderer.js:105-117 | where the desktop probe fires on a first match that is not transparent, the extension's probe fires too |
| ProbeVariants.OnlyExtensionSeesLaterMatch | extension/content-llm.js:66-76 | a hidden first match followed by a visible one fires the extension's probe but not the desktop one |
| ProbeVariants.OnlyDesktopSeesTransparentMatch | desktop-app/renderer.js:107-115 | a transparent but displayed match fires the desktop probe but not the extension's |

## Left out

- `desktop-app/main.js` and `desktop-app/preload.js` are not part of this model. They cover window creation, header rewriting, and an IPC relay over Electron libraries.
- The DOM, CSS selector semantics, `getComputedStyle`, `getBoundingClientRect` and `executeJavaScript` are replaced by an oracle. Each selector is an opaque key mapped to element records or to an exception, and an evaluation either yields a page or fails.
- `chrome.runtime` messaging is transport only. Only the handlers' effects are modelled, plus the side panel's outgoing messages. The Instagram script's INSTAGRAM_READY message and the `MutationObserver` wiring in `observeVideos` are left out; only the `play` handler's effect is kept.
- Timing is left out: interval periods, the 500 ms init delay, and the 1000 ms pause-on-load delay. Each tick is atomic and sequential, so overlapping asynchronous probes are not modelled.
- In `App.tsx`, React's state updates within one tick are modelled as applied in order, with the last one winning. The re-creation of the interval when `llmProvider` or `isPaused` changes is not modelled.
- The videos' response to the scripts sent to the Electron webviews is not modelled. Only the sequence of commands is recorded, with a flag saying whether the script succeeded.
- ContentInstagram.ReelController.PlayReel: one flag says whether autoplay is allowed, so a play call takes effect on every paused video or on none. A per-video rejection of `play()` is not modelled.
- `scalePhone` (floating-point scaling), CSS and HTML templates, the logo URL, `console.log`, status-dot classes outside the side panel, and the body cursor style are left out.
- The React `Select` component of `App.tsx`, which holds its own open flag, and all JSX rendering apart from the webviews' addresses are left out.
- `showIndicator` builds DOM and is left out. The indicator's text is kept, as `LlmPage.indicatorText`, together with the invariant that ties it to the open flag.
- Renderer.PlatformFor: finds only the table's own keys. A key naming an inherited property of a JavaScript object, such as "constructor", is not modelled. The menu only offers the table's keys.
- Webview and iframe `src` values are kept as given. URL normalisation by the browser is not modelled.
- The `did-fail-load` handlers of `renderer.js` only log, and are left out.

## Findings

| source | as written | input that shows it | evidently intended | confidence | as-written member | corrected member |
|---|---|---|---|---|---|---|
| extension/content-llm.js:439 | `createPanel` always labels the platform button "Instagram", while `initDropdown` marks `currentPlatform` selected and the frame's saved address is `currentSocialUrl` | choose TikTok in the panel, close the panel, open it again: TikTok is marked and will load, but the button reads "Instagram" | the button shows the label of the current platform | not executed | ContentLlm.ReopenedLabelDisagrees | ContentLlm.OpenedPanelLabelAgrees |
