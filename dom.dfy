/**
 * The slice of the browser's document model the library touches: elements with
 * scroll offsets, scroll and client sizes and a bounding rectangle, and the
 * document's two distinguished elements.
 */
module Dom {

  datatype Option<T> = None | Some(value: T) {
    /** The value, or `fallback` when there is none (a destructuring default). */
    function GetOr(fallback: T): T {
      match this
      case Some(v) => v
      case None => fallback
    }
  }

  /** An (x, y) pair of integers: scroll offsets, scroll maxima or content sizes. */
  datatype Point = Point(x: int, y: int)

  /**
   * The ways a call can end without a run. The first two are the library's own
   * `TypeError`s; `EngineTypeError` is the one the JavaScript engine raises when
   * a property is read from `null`/`undefined` or a non-function is called.
   * `NotModelled` is no error of the
   * source: the older copies go on with a truthy container that is not an
   * element, reading `undefined` properties into NaN arithmetic, and the model
   * stops there.
   */
  datatype Error = ContainerNotElement | TargetNotElement | EngineTypeError | NotModelled

  datatype Result<T> = Ok(value: T) | Err(error: Error)

  const ContainerMessage: string := "Option `container` must be a `Element` instance."
  const TargetMessage: string := "Option `target` must be a `Element` instance."

  /** The message a library error carries. */
  function Message(e: Error): (m: string)
    requires e == ContainerNotElement || e == TargetNotElement
    ensures e == ContainerNotElement ==> m == ContainerMessage
    ensures e == TargetNotElement ==> m == TargetMessage
  {
    if e == ContainerNotElement then ContainerMessage else TargetMessage
  }

  /**
   * An element. `left`/`top` are the edges of `getBoundingClientRect()`,
   * relative to the viewport. Writes to the offsets are assumed to stick.
   */
  class Element {
    var scrollLeft: int
    var scrollTop: int
    var scrollWidth: int
    var scrollHeight: int
    var clientWidth: int
    var clientHeight: int
    var left: real
    var top: real

    constructor (scrollWidth: int, scrollHeight: int, clientWidth: int, clientHeight: int, left: real, top: real)
      ensures scrollLeft == 0 && scrollTop == 0
      ensures this.scrollWidth == scrollWidth && this.scrollHeight == scrollHeight
      ensures this.clientWidth == clientWidth && this.clientHeight == clientHeight
      ensures this.left == left && this.top == top
    {
      scrollLeft, scrollTop := 0, 0;
      this.scrollWidth, this.scrollHeight := scrollWidth, scrollHeight;
      this.clientWidth, this.clientHeight := clientWidth, clientHeight;
      this.left, this.top := left, top;
    }

    /** The current scroll offsets. */
    function Offsets(): Point
      reads this
    {
      Point(scrollLeft, scrollTop)
    }

    /** The total scrollable content size. */
    function ContentSize(): Point
      reads this
    {
      Point(scrollWidth, scrollHeight)
    }
  }

  /**
   * The document: `scrollingElement` (which may be null) is the page's
   * scrolling root, recognised by identity; `documentElement` is `<html>`.
   */
  class Document {
    const scrollingElement: Element?
    const documentElement: Element

    constructor (scrollingElement: Element?, documentElement: Element)
      ensures this.scrollingElement == scrollingElement
      ensures this.documentElement == documentElement
    {
      this.scrollingElement := scrollingElement;
      this.documentElement := documentElement;
    }
  }

  /**
   * What a caller may pass where an element is expected: nothing
   * (`undefined`), `null`, an element, or some other (truthy) value.
   */
  datatype Handle = Absent | NullRef | Elem(element: Element) | NonElement
}
