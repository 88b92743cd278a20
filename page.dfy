/**
 * The page as the probes see it. CSS selector semantics are not modelled: a
 * selector is an opaque string, and a document says, for each selector, what
 * `querySelectorAll` would return for it or that the query throws. Every element
 * carries the computed-style and bounding-box values the visibility tests read.
 */
module Page {

  /** An element as `getComputedStyle` and `getBoundingClientRect` report it. */
  datatype ElementView =
    | Rendered(display: string, visibility: string, opacity: string, width: real, height: real)
      /** Reading the style or the box of this element throws. */
    | Unmeasurable

  /** The outcome of `querySelectorAll(selector)`: the matches in document order, or an exception. */
  datatype QueryResult = Matches(elements: seq<ElementView>) | Throws

  /** The outcome of `querySelector(selector)`. */
  datatype FirstResult = Found(element: ElementView) | NoElement | Raises

  datatype Document = Document(queries: map<string, QueryResult>) {

    /** `document.querySelectorAll(selector)`; a selector the map does not name matches nothing. */
    function QueryAll(selector: string): QueryResult {
      if selector in queries then queries[selector] else Matches([])
    }

    /** `document.querySelector(selector)`: the first match of `querySelectorAll`. */
    function QueryFirst(selector: string): (r: FirstResult)
      ensures r.Raises? <==> QueryAll(selector).Throws?
      ensures r.NoElement? <==> QueryAll(selector) == Matches([])
      ensures r.Found? ==> QueryAll(selector).Matches? && r.element == QueryAll(selector).elements[0]
    {
      match QueryAll(selector)
      case Throws => Raises
      case Matches(elements) => if elements == [] then NoElement else Found(elements[0])
    }
  }
}
