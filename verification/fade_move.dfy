/**
 * The `FadeMove` motion of the `motions` package.
 *
 * It renders the origin's content absolutely positioned at the
 * (scroll-corrected) origin, with the origin's size and no margin. Before the
 * motion it is untransformed and opaque; during the motion it is translated to
 * the destination, optionally scaled, and faded out.
 */
module FadeMove {
  import opened Wrappers
  import opened Geometry

  /**
   * The props. `scaleX` and `scaleY` are optional and have no default, so an
   * absent flag turns scaling off on that axis.
   */
  datatype Props = Props(duration: Duration, zIndex: int, timingFunction: string,
                         scaleX: Option<bool>, scaleY: Option<bool>)

  /** A prop flag as the code reads it: only `true` enables. */
  predicate Enabled(flag: Option<bool>)
  {
    flag == Some(true)
  }

  /** A scale factor: 1, or the quotient `numerator / denominator` left undivided. */
  datatype Scale = Unit | Ratio(numerator: int, denominator: int)

  /** `translate3d(left, top, 0) scale3d(x, y, 1)`. */
  datatype Transform = Transform(translate: Location, scaleX: Scale, scaleY: Scale)

  /** `translate3d(0, 0, 0) scale3d(1, 1, 1)`. */
  const Identity: Transform := Transform(Location(0, 0), Unit, Unit)

  /** The style handed to the origin's render callback (the parts that carry geometry or timing). */
  datatype Style = Style(top: int, left: int, zIndex: int, durationMs: int,
                         transform: Transform, opacity: int, margin: int,
                         height: int, width: int)

  datatype Rendered = Rendered(render: Handle, style: Style)

  /**
   * What `renderMotion` renders. `recalc` stands for
   * `recalculateElementBoundingBoxFromScroll` and `dynamic` for the duration
   * heuristic.
   */
  function Render(props: Props, data: AnimationData, moveToTarget: bool,
                  recalc: BoundingBox -> BoundingBox,
                  dynamic: (BoundingBox, BoundingBox) -> int): (r: Rendered)
    ensures
      var current := recalc(data.origin.elementBoundingBox);
      var destination := data.destination.elementBoundingBox;
      var s := r.style;
      && r.render == data.origin.render
      && s.zIndex == props.zIndex
      // `'dynamic'` applies the heuristic to the corrected origin and the destination
      && (props.duration.Dynamic? ==> s.durationMs == dynamic(current, destination))
      && (props.duration.Fixed? ==> s.durationMs == props.duration.ms)
      // in both modes the box sits at the corrected origin, with its size and no margin
      && s.top == current.location.top && s.left == current.location.left
      && s.margin == 0
      && s.height == current.size.height && s.width == current.size.width
      // before the motion: untransformed and opaque
      && (!moveToTarget ==> s.transform == Identity && s.opacity == 1)
      // during the motion: translated onto the destination and transparent
      && (moveToTarget ==> s.opacity == 0 && Shift(current.location, s.transform.translate) == destination.location)
      // an axis without scaling keeps scale 1
      && (!Enabled(props.scaleX) ==> s.transform.scaleX == Unit)
      && (!Enabled(props.scaleY) ==> s.transform.scaleY == Unit)
      && (moveToTarget && Enabled(props.scaleX) ==> s.transform.scaleX == Ratio(current.size.width, destination.size.width))
      && (moveToTarget && Enabled(props.scaleY) ==> s.transform.scaleY == Ratio(current.size.height, destination.size.height))
  {
    var current := recalc(data.origin.elementBoundingBox);
    var destination := data.destination.elementBoundingBox;
    var moved := Transform(Delta(current.location, destination.location),
                           if Enabled(props.scaleX) then Ratio(current.size.width, destination.size.width) else Unit,
                           if Enabled(props.scaleY) then Ratio(current.size.height, destination.size.height) else Unit);
    Rendered(data.origin.render,
             Style(current.location.top, current.location.left, props.zIndex,
                   ResolveDuration(props.duration, current, destination, dynamic),
                   if moveToTarget then moved else Identity,
                   if moveToTarget then 0 else 1,
                   0, current.size.height, current.size.width))
  }

  class FadeMove {
    const props: Props
    var calculatedDuration: int

    constructor(props: Props)
      ensures this.props == props && calculatedDuration == 0
    {
      this.props := props;
      calculatedDuration := 0;
    }

    /** `renderMotion`: records the calculated duration and renders the origin's content. */
    method RenderMotion(data: AnimationData, moveToTarget: bool,
                        recalc: BoundingBox -> BoundingBox,
                        dynamic: (BoundingBox, BoundingBox) -> int) returns (r: Rendered)
      modifies this`calculatedDuration
      ensures r == Render(props, data, moveToTarget, recalc, dynamic)
      ensures calculatedDuration == r.style.durationMs
    {
      calculatedDuration := ResolveDuration(props.duration, recalc(data.origin.elementBoundingBox),
                                            data.destination.elementBoundingBox, dynamic);
      r := Render(props, data, moveToTarget, recalc, dynamic);
    }

    /** `beforeAnimate`: finishes at once, then renders in place. */
    method BeforeAnimate(data: AnimationData, recalc: BoundingBox -> BoundingBox,
                         dynamic: (BoundingBox, BoundingBox) -> int) returns (effects: seq<Effect>, r: Rendered)
      modifies this`calculatedDuration
      ensures effects == [FinishNow]
      ensures r == Render(props, data, false, recalc, dynamic)
      ensures calculatedDuration == r.style.durationMs
    {
      effects := [FinishNow];
      r := RenderMotion(data, false, recalc, dynamic);
    }

    /**
     * `animate`: sets the finish timer to the duration calculated so far
     * (the timer is set before this call renders), then renders the motion.
     */
    method Animate(data: AnimationData, recalc: BoundingBox -> BoundingBox,
                   dynamic: (BoundingBox, BoundingBox) -> int) returns (effects: seq<Effect>, r: Rendered)
      modifies this`calculatedDuration
      ensures effects == [FinishAfter(old(calculatedDuration))]
      ensures r == Render(props, data, true, recalc, dynamic)
      ensures calculatedDuration == r.style.durationMs
    {
      effects := [FinishAfter(calculatedDuration)];
      r := RenderMotion(data, true, recalc, dynamic);
    }
  }
}
