/**
 * How the extension's probe (content-llm.js) and the desktop probe (renderer.js,
 * App.tsx) judge the same page differently: the extension reads every match and
 * the opacity, the desktop probe only the first match and no opacity.
 */
module ProbeVariants {
  import opened Page
  import ContentLlm
  import Desktop

  /** The two visibility tests differ exactly on fully transparent elements. */
  lemma VisibilityTestsDiffer(e: ElementView)
    ensures ContentLlm.IsVisible(e) ==> Desktop.ProbeVisible(e)
    ensures Desktop.ProbeVisible(e) && !ContentLlm.IsVisible(e) <==> Desktop.ProbeVisible(e) && e.opacity == "0"
  {
  }

  /** Where the desktop probe fires on a selector whose first match is not transparent, the extension's fires too. */
  lemma DesktopFiringImpliesExtensionFiring(doc: Document, selector: string)
    requires Desktop.ProbeFires(doc, selector)
    requires doc.QueryFirst(selector).element.opacity != "0"
    ensures ContentLlm.SelectorFires(doc, selector)
  {
    assert ContentLlm.IsVisible(doc.QueryAll(selector).elements[0]);
  }

  const Hidden := Rendered("none", "visible", "1", 40.0, 40.0)
  const Shown := Rendered("block", "visible", "1", 40.0, 40.0)
  const Transparent := Rendered("block", "visible", "0", 40.0, 40.0)
  const StopButton := "button[aria-label=\"Stop generating\"]"

  /** A page whose stop button is preceded by a hidden copy: only the extension sees it. */
  const SecondMatchShown := Document(map[StopButton := Matches([Hidden, Shown])])

  /** A page whose stop button is fully transparent: only the desktop probe sees it. */
  const TransparentMatch := Document(map[StopButton := Matches([Transparent])])

  lemma OnlyExtensionSeesLaterMatch()
    ensures ContentLlm.SelectorFires(SecondMatchShown, StopButton)
    ensures !Desktop.ProbeFires(SecondMatchShown, StopButton)
  {
    var elements := SecondMatchShown.QueryAll(StopButton).elements;
    assert ContentLlm.IsVisible(elements[1]);
  }

  lemma OnlyDesktopSeesTransparentMatch()
    ensures Desktop.ProbeFires(TransparentMatch, StopButton)
    ensures !ContentLlm.SelectorFires(TransparentMatch, StopButton)
  {
    var elements := TransparentMatch.QueryAll(StopButton).elements;
    assert elements == [Transparent];
  }
}
