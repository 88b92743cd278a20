/**
 * What the two desktop front ends (desktop-app/renderer.js and desktop-app/src/App.tsx)
 * share, written once: the LLM configuration table and its lookup with a ChatGPT
 * default, the probe script run inside the LLM webview, the panel-width clamp, and
 * the pause/play decision a poll tick makes through the `isPaused` guard.
 */
module Desktop {
  import opened Wrappers
  import opened Text
  import opened Registry
  import opened Page
  import opened Debouncer

  datatype LlmConfig = LlmConfig(domain: string, name: string, generating: seq<string>)

  const LlmSelectors: seq<Entry<LlmConfig>> := [
    Entry("chatgpt.com", LlmConfig("chatgpt.com", "ChatGPT", [
      "button[aria-label=\"Stop generating\"]",
      "button[aria-label=\"Stop streaming\"]",
      "button[data-testid=\"stop-button\"]",
      "[class*=\"result-streaming\"]"])),
    Entry("claude.ai", LlmConfig("claude.ai", "Claude", [
      "button[aria-label=\"Stop Response\"]",
      "button[aria-label*=\"Stop\"]"])),
    Entry("gemini.google.com", LlmConfig("gemini.google.com", "Gemini", [
      "button[aria-label=\"Stop generating\"]",
      "mat-spinner"]))
  ]

  /**
   * The configuration for an address: that of the first domain the address includes,
   * otherwise the chatgpt.com configuration. Always one of the table's configurations.
   */
  function ConfigFor(url: string): (config: LlmConfig)
    ensures forall k :: IsFirstMatch(LlmSelectors, url, k) ==> config == LlmSelectors[k].value
    ensures NoMatch(LlmSelectors, url) ==> config == LlmSelectors[0].value
    ensures exists k :: 0 <= k < |LlmSelectors| && config == LlmSelectors[k].value
  {
    match FirstMatch(LlmSelectors, url)
    case Some(k) => LlmSelectors[k].value
    case None => LlmSelectors[0].value
  }

  /** The table scan shared by getCurrentLLM and getCurrentLLMConfig. */
  method LookupConfig(url: string) returns (config: LlmConfig)
    ensures config == ConfigFor(url)
  {
    var k := FindFirst(LlmSelectors, url);
    match k {
      case Some(i) => config := LlmSelectors[i].value;
      case None => config := LlmSelectors[0].value;
    }
  }

  /** A character of `sub` that `s` lacks rules out `s.includes(sub)`. */
  lemma MissingCharExcludes(s: string, sub: string, c: char)
    requires c in sub && c !in s
    ensures !Includes(s, sub)
  {
  }

  /** The probe script's test on the first match: not display:none, not visibility:hidden, non-empty box. */
  predicate ProbeVisible(e: ElementView): (visible: bool)
    ensures visible <==> e.Rendered? && e.display != "none" && e.visibility != "hidden" && e.width > 0.0 && e.height > 0.0
  {
    match e
    case Unmeasurable => false
    case Rendered(display, visibility, _, width, height) =>
      display != "none" && visibility != "hidden" && width > 0.0 && height > 0.0
  }

  /** The first element matching `selector` exists and passes the probe's test. */
  ghost predicate ProbeFires(doc: Document, selector: string) {
    var first := doc.QueryFirst(selector);
    first.Found? && ProbeVisible(first.element)
  }

  /** The probe script's answer: some selector's first match is visible. */
  ghost predicate ProbeSees(selectors: seq<string>, doc: Document) {
    exists i :: 0 <= i < |selectors| && ProbeFires(doc, selectors[i])
  }

  /** The script evaluated in the LLM webview: each selector in its own try, first match only. */
  method RunProbeScript(selectors: seq<string>, doc: Document) returns (r: bool)
    ensures r == ProbeSees(selectors, doc)
  {
    var i := 0;
    while i < |selectors|
      invariant 0 <= i <= |selectors|
      invariant forall i' :: 0 <= i' < i ==> !ProbeFires(doc, selectors[i'])
    {
      var first := doc.QueryFirst(selectors[i]);
      if first.Found? && ProbeVisible(first.element) {
        return true;
      }
      i := i + 1;
    }
    return false;
  }

  /** The outcome of `executeJavaScript` on the LLM webview: it evaluates against a page, or it fails. */
  datatype Evaluation = Evaluated(doc: Document) | EvaluationFails

  /** checkGenerating's answer: a failed evaluation reads as not generating. */
  ghost predicate ProbeResult(config: LlmConfig, evaluation: Evaluation) {
    evaluation.Evaluated? && ProbeSees(config.generating, evaluation.doc)
  }

  /** `Math.min(Math.max(width, min), max)`: the dragged width kept within bounds. */
  function ClampWidth(width: int, min: int, max: int): (w: int)
    requires min <= max
    ensures min <= w <= max
    ensures min <= width <= max ==> w == width
    ensures width < min ==> w == min
    ensures width > max ==> w == max
  {
    if width < min then min else if width > max then max else width
  }

  // ---------------------------------------------------------------------------
  // Pause/play through the isPaused guard

  datatype Command = PauseVideos | PlayVideos

  /** One `executeJavaScript` call on the reels webview, and whether it succeeded (a failure is caught). */
  datatype Sent = Sent(command: Command, delivered: bool)

  datatype Playback = Playback(wasGenerating: bool, isPaused: bool)

  /**
   * The command a tick issues: play on a false-to-true change while paused, pause
   * on a true-to-false change while playing, nothing otherwise.
   */
  function TickCommand(state: Playback, generating: bool): (cmd: Option<Command>)
    ensures cmd == Some(PlayVideos) <==> !state.wasGenerating && generating && state.isPaused
    ensures cmd == Some(PauseVideos) <==> state.wasGenerating && !generating && !state.isPaused
  {
    if !state.wasGenerating && generating && state.isPaused then Some(PlayVideos)
    else if state.wasGenerating && !generating && !state.isPaused then Some(PauseVideos)
    else None
  }

  /** The state after a tick: the sample is remembered, and a command sets the paused flag. */
  function TickState(state: Playback, generating: bool): (next: Playback)
    ensures next.wasGenerating == generating
  {
    Playback(generating,
      match TickCommand(state, generating)
      case Some(PlayVideos) => false
      case Some(PauseVideos) => true
      case None => state.isPaused)
  }

  /** The commands issued, in order, over a run of ticks. */
  function RunCommands(state: Playback, samples: seq<bool>): seq<Command>
    decreases |samples|
  {
    if samples == [] then []
    else
      (match TickCommand(state, samples[0])
       case Some(c) => [c]
       case None => []) + RunCommands(TickState(state, samples[0]), samples[1..])
  }

  /** The state after a run of ticks. */
  function RunState(state: Playback, samples: seq<bool>): Playback
    decreases |samples|
  {
    if samples == [] then state else RunState(TickState(state, samples[0]), samples[1..])
  }

  /** The reels are never left paused while the last sample said the AI was generating. */
  ghost predicate NeverPausedWhileGenerating(state: Playback) {
    state.isPaused ==> !state.wasGenerating
  }

  /** The paused flag is exactly "the last sample said idle". */
  ghost predicate Synced(state: Playback) {
    state.isPaused == !state.wasGenerating
  }

  /** Every run keeps the reels playing while generation was last seen. */
  lemma {:induction false} RunNeverPausedWhileGenerating(state: Playback, samples: seq<bool>)
    requires NeverPausedWhileGenerating(state)
    ensures NeverPausedWhileGenerating(RunState(state, samples))
    decreases |samples|
  {
    if samples != [] {
      RunNeverPausedWhileGenerating(TickState(state, samples[0]), samples[1..]);
    }
  }

  function CommandFor(e: Edge): Command {
    match e
    case Started => PlayVideos
    case Finished => PauseVideos
  }

  function CommandsFor(edges: seq<Edge>): (commands: seq<Command>)
    ensures |commands| == |edges|
    ensures forall i :: 0 <= i < |edges| ==> commands[i] == CommandFor(edges[i])
  {
    seq(|edges|, i requires 0 <= i < |edges| => CommandFor(edges[i]))
  }

  /**
   * From a synced state every edge issues exactly one command (play for a start,
   * pause for a finish), so the commands alternate and number the signal's changes.
   */
  lemma {:induction false} SyncedRunFollowsEdges(state: Playback, samples: seq<bool>)
    requires Synced(state)
    ensures RunCommands(state, samples) == CommandsFor(Edges(state.wasGenerating, samples))
    ensures Synced(RunState(state, samples))
    ensures |RunCommands(state, samples)| == Changes(state.wasGenerating, samples)
    decreases |samples|
  {
    EdgesCountChanges(state.wasGenerating, samples);
    if samples != [] {
      SyncedRunFollowsEdges(TickState(state, samples[0]), samples[1..]);
      var head := match EdgeOf(state.wasGenerating, samples[0]) case Some(e) => [e] case None => [];
      assert CommandsFor(head + Edges(samples[0], samples[1..])) ==
        CommandsFor(head) + CommandsFor(Edges(samples[0], samples[1..]));
    }
  }

  /** A run whose every sample repeats the remembered one issues no command and changes nothing. */
  lemma {:induction false} SteadyRunIssuesNothing(state: Playback, n: nat)
    ensures RunCommands(state, seq(n, _ => state.wasGenerating)) == []
    ensures RunState(state, seq(n, _ => state.wasGenerating)) == state
    decreases n
  {
    var samples := seq(n, _ => state.wasGenerating);
    if n > 0 {
      assert samples[1..] == seq(n - 1, _ => state.wasGenerating);
      SteadyRunIssuesNothing(state, n - 1);
    }
  }
}
