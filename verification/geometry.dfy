/**
 * Boxes, offsets and durations shared by the effect descriptors.
 *
 * A bounding box is what the DOM helpers return: a location (top, left) and a
 * size (width, height). Pixels are modelled as integers. The DOM reads
 * themselves (`getElementSizeLocation`, `recalculateElementBoundingBoxFromScroll`)
 * and the duration heuristic `dynamic` are not part of this model: callers
 * pass their results, or pass them as function values, so nothing is assumed
 * about them.
 */
module Geometry {
  import opened Wrappers

  datatype Location = Location(top: int, left: int)
  datatype Size = Size(width: int, height: int)
  datatype BoundingBox = BoundingBox(location: Location, size: Size)

  /** An opaque handle (a DOM element or a render callback). */
  type Handle = nat

  /** Moves a location by an offset, component by component. */
  function Shift(l: Location, offset: Location): Location
  {
    Location(l.top + offset.top, l.left + offset.left)
  }

  /** The offset that takes `from` to `to`: `to - from` on each axis. */
  function Delta(from: Location, to: Location): (d: Location)
    ensures Shift(from, d) == to
    ensures forall e: Location :: Shift(from, e) == to ==> e == d
  {
    Location(to.top - from.top, to.left - from.left)
  }

  /** The opposite offset. */
  function Negate(d: Location): (n: Location)
    ensures forall l: Location :: Shift(Shift(l, d), n) == l
  {
    Location(-d.top, -d.left)
  }

  /** The `duration` prop: `'dynamic'` or a number of milliseconds. */
  datatype Duration = Dynamic | Fixed(ms: int)

  /**
   * The duration an effect uses: the heuristic applied to the (recalculated)
   * origin and the destination when the prop is `'dynamic'`, otherwise the
   * prop itself.
   */
  function ResolveDuration(duration: Duration, origin: BoundingBox, destination: BoundingBox,
                           dynamic: (BoundingBox, BoundingBox) -> int): int
  {
    match duration
    case Dynamic => dynamic(origin, destination)
    case Fixed(ms) => ms
  }

  /** The origin side of the data an effect receives: the captured boxes and the render callback. */
  datatype Origin = Origin(elementBoundingBox: BoundingBox,
                           focalTargetElementBoundingBox: Option<BoundingBox>,
                           render: Handle)

  /** The destination side: the box of the element being transitioned to. */
  datatype Destination = Destination(elementBoundingBox: BoundingBox)

  datatype AnimationData = AnimationData(origin: Origin, destination: Destination)

  /** What an effect callback does besides rendering, in the order it does it. */
  datatype Effect =
    | FinishNow                    // calls `onFinish()` synchronously
    | FinishAfter(ms: int)         // `setTimeout(onFinish, ms)`
    | SetChildOpacity(opacity: int) // `setChildProps` with a style of that opacity
}
