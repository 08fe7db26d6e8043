/** The two measuring helpers: how far a container can scroll, and where a target element sits in it. */
module Geometry {
  import opened Dom
  import opened JsMath

  /**
   * The element whose metrics give the scroll range: for the page's scrolling
   * root the document element, otherwise the element itself.
   */
  function MetricsElement(doc: Document, element: Element): (m: Element)
    ensures element == doc.scrollingElement ==> m == doc.documentElement
    ensures element != doc.scrollingElement ==> m == element
  {
    if element == doc.scrollingElement then doc.documentElement else element
  }

  /**
   * `getScrollMax` (current copy): the largest scroll offset on each axis, the
   * offset at which the viewport's far edge meets the end of the content.
   */
  function GetScrollMax(doc: Document, element: Element): (r: Point)
    reads element, doc.documentElement
    ensures r.x + MetricsElement(doc, element).clientWidth == MetricsElement(doc, element).scrollWidth
    ensures r.y + MetricsElement(doc, element).clientHeight == MetricsElement(doc, element).scrollHeight
  {
    var m := MetricsElement(doc, element);
    Point(m.scrollWidth - m.clientWidth, m.scrollHeight - m.clientHeight)
  }

  /** An offset is at most the scroll max exactly when the viewport at that offset stays inside the content. */
  lemma ScrollMaxIsLastInsideOffset(doc: Document, element: Element, offX: int, offY: int)
    ensures var m := MetricsElement(doc, element);
      && (offX <= GetScrollMax(doc, element).x <==> offX + m.clientWidth <= m.scrollWidth)
      && (offY <= GetScrollMax(doc, element).y <==> offY + m.clientHeight <= m.scrollHeight)
  {
  }

  /** For the scrolling root, the result is that of the document element. */
  lemma ScrollMaxOfRoot(doc: Document, element: Element)
    requires element == doc.scrollingElement
    ensures GetScrollMax(doc, element) == GetScrollMax(doc, doc.documentElement)
  {
  }

  /** The x maximum reads only widths and the y maximum only heights. */
  lemma ScrollMaxAxesSeparate(doc: Document, element: Element)
    ensures var m := MetricsElement(doc, element);
      GetScrollMax(doc, element) == Point(m.scrollWidth - m.clientWidth, m.scrollHeight - m.clientHeight)
  {
  }

  /**
   * `getScrollMax` (older copies): the scrolling root's maxima come from two
   * foreign packages, given here as `foreignMax`; any other element uses its own metrics.
   */
  function GetScrollMaxForeign(doc: Document, element: Element, foreignMax: Point): (r: Point)
    reads element
    ensures element == doc.scrollingElement ==> r == foreignMax
    ensures element != doc.scrollingElement ==> r.x + element.clientWidth == element.scrollWidth
    ensures element != doc.scrollingElement ==> r.y + element.clientHeight == element.scrollHeight
  {
    if element == doc.scrollingElement then foreignMax
    else Point(element.scrollWidth - element.clientWidth, element.scrollHeight - element.clientHeight)
  }

  /** Off the scrolling root, both copies of `getScrollMax` agree. */
  lemma ScrollMaxCopiesAgreeOffRoot(doc: Document, element: Element, foreignMax: Point)
    requires element != doc.scrollingElement
    ensures GetScrollMaxForeign(doc, element, foreignMax) == GetScrollMax(doc, element)
  {
  }

  /** Where the container's content frame starts on screen: the viewport origin for the root. */
  function Origin(containerEdge: real, isRoot: bool): real
  {
    if isRoot then 0.0 else containerEdge
  }

  /**
   * One axis of `getTargetScrollPos`: the scroll offset that brings the
   * target's edge to the container's edge, to the nearest pixel. After
   * scrolling by `p - scroll` the target's edge is left less than half a pixel
   * from the container's edge.
   */
  function AxisScrollPos(targetEdge: real, scroll: int, containerEdge: real, isRoot: bool): (p: int)
    ensures -0.5 <= targetEdge - (p - scroll) as real - Origin(containerEdge, isRoot) < 0.5
  {
    var pos := targetEdge + scroll as real;
    Round(if isRoot then pos else pos - containerEdge)
  }

  /** On the root, the result is the rounded target edge plus the scroll offset. */
  lemma AxisScrollPosOnRoot(targetEdge: real, scroll: int, containerEdge: real)
    ensures AxisScrollPos(targetEdge, scroll, containerEdge, true) == Round(targetEdge + scroll as real)
  {
  }

  /** Off the root, the container's edge is subtracted before rounding. */
  lemma AxisScrollPosOffRoot(targetEdge: real, scroll: int, containerEdge: real)
    ensures AxisScrollPos(targetEdge, scroll, containerEdge, false) == Round(targetEdge + scroll as real - containerEdge)
  {
  }

  /** Moving the container and the target on screen by the same amount changes nothing. */
  lemma AxisScrollPosShift(targetEdge: real, scroll: int, containerEdge: real, delta: real)
    ensures AxisScrollPos(targetEdge + delta, scroll, containerEdge + delta, false)
         == AxisScrollPos(targetEdge, scroll, containerEdge, false)
  {
  }

  /**
   * The answer does not depend on where the container is scrolled to:
   * scrolling by `k` moves the target's rectangle by `-k` and leaves the result.
   */
  lemma AxisScrollPosScrollInvariant(targetEdge: real, scroll: int, containerEdge: real, isRoot: bool, k: int)
    ensures AxisScrollPos(targetEdge - k as real, scroll + k, containerEdge, isRoot)
         == AxisScrollPos(targetEdge, scroll, containerEdge, isRoot)
  {
  }

  /**
   * `getTargetScrollPos`: the container offsets that bring the target's
   * top-left corner to the container's visible top-left corner (the viewport's
   * for the scrolling root), each within half a pixel.
   */
  function GetTargetScrollPos(doc: Document, container: Element, target: Element): (r: Point)
    reads container, target
    ensures -0.5 <= target.left - (r.x - container.scrollLeft) as real
                    - Origin(container.left, container == doc.scrollingElement) < 0.5
    ensures -0.5 <= target.top - (r.y - container.scrollTop) as real
                    - Origin(container.top, container == doc.scrollingElement) < 0.5
  {
    var isRoot := container == doc.scrollingElement;
    Point(AxisScrollPos(target.left, container.scrollLeft, container.left, isRoot),
          AxisScrollPos(target.top, container.scrollTop, container.top, isRoot))
  }
}
