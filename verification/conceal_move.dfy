/**
 * The `ConcealMove` effect of the `yubaba` package.
 *
 * It renders the origin's content in an absolutely positioned, clipped box at
 * the origin's (scroll-corrected) position. Before the animation the box keeps
 * the origin's size and no transform; during the animation it is translated
 * towards the destination and resized to the destination's size, while its
 * content is shifted so that the focal element sits at the box's corner;
 * after the animation it also fades out.
 */
module ConcealMove {
  import opened Wrappers
  import opened Geometry

  /** The props: duration (defaults to `'dynamic'`), z-index and timing function. */
  datatype Props = Props(duration: Duration, zIndex: int, timingFunction: string)

  /** The options of `renderAnimation` (both default to false). */
  datatype Options = Options(moveToTarget: bool, fadeOut: bool)

  /** The box's `transform`: `'none'` or `translate3d(left, top, 0)`. */
  datatype Transform = NoTransform | Translate(offset: Location)

  /** The style handed to the origin's render callback (the parts that carry geometry or timing). */
  datatype Style = Style(zIndex: int, opacity: int, durationMs: int,
                         top: int, left: int, height: int, width: int,
                         transform: Transform)

  /**
   * The class generated for the box's children while moving: its transform
   * is `translate3d(-<left>px, -<top>px, 0)`, written by putting a minus sign
   * in front of the focal offset's text. When an offset is negative that text
   * reads `--<n>px`, which is not a length, so the declaration is dropped and
   * the class translates nothing (`translate` is `None`).
   */
  datatype ChildClass = NoClass | ChildClass(translate: Option<Location>)

  /** A call of the origin's render callback: the style and the children's class. */
  datatype Rendered = Rendered(render: Handle, style: Style, child: ChildClass)

  /** Whether `-<n>px`, for the given offset's components, is a valid length on both axes. */
  predicate NegatableText(offset: Location)
  {
    offset.top >= 0 && offset.left >= 0
  }

  const FocalTargetMissing: string :=
    "yubaba\n<FocalTarget /> was not found, if you haven't defined one make sure to add one as a descendant of your target Baba."

  /** Milliseconds `afterAnimate` waits before it finishes. */
  const AfterAnimateDelay: int := 100

  /**
   * What `renderAnimation` renders, or the error it throws when the origin has
   * no focal box. `recalc` stands for `recalculateElementBoundingBoxFromScroll`
   * and `dynamic` for the duration heuristic.
   */
  function Render(props: Props, data: AnimationData, opts: Options,
                  recalc: BoundingBox -> BoundingBox,
                  dynamic: (BoundingBox, BoundingBox) -> int): (r: Result<Rendered>)
    ensures r.Err? <==> data.origin.focalTargetElementBoundingBox.None?
    ensures r.Err? ==> r.message == FocalTargetMissing
    ensures r.Ok? ==>
      var origin := data.origin.elementBoundingBox;
      var current := recalc(origin);
      var destination := data.destination.elementBoundingBox;
      var focal := data.origin.focalTargetElementBoundingBox.value;
      var s := r.value.style;
      && r.value.render == data.origin.render
      && s.zIndex == props.zIndex
      // `'dynamic'` applies the heuristic to the corrected origin and the destination
      && (props.duration.Dynamic? ==> s.durationMs == dynamic(current, destination))
      && (props.duration.Fixed? ==> s.durationMs == props.duration.ms)
      // the box always starts at the scroll-corrected origin position
      && s.top == current.location.top && s.left == current.location.left
      // and takes the destination's size only when moving
      && s.height == (if opts.moveToTarget then destination.size.height else current.size.height)
      && s.width == (if opts.moveToTarget then destination.size.width else current.size.width)
      && (s.opacity == 0 <==> opts.fadeOut)
      && (s.opacity == 1 <==> !opts.fadeOut)
      && (s.transform.NoTransform? <==> !opts.moveToTarget)
      // the translation takes the captured origin position to the destination position
      && (opts.moveToTarget ==> Shift(origin.location, s.transform.offset) == destination.location)
      // the children get a class exactly when moving; it shifts them back by the focal
      // element's offset inside the origin box, unless that offset is negative on an axis
      && (r.value.child.ChildClass? <==> opts.moveToTarget)
      && (opts.moveToTarget ==>
            (r.value.child.translate.Some? <==>
               focal.location.top >= origin.location.top && focal.location.left >= origin.location.left))
      && (opts.moveToTarget && r.value.child.translate.Some? ==>
            Shift(focal.location, r.value.child.translate.value) == origin.location)
  {
    match data.origin.focalTargetElementBoundingBox
    case None => Err(FocalTargetMissing)
    case Some(focal) =>
      var origin := data.origin.elementBoundingBox;
      var current := recalc(origin);
      var destination := data.destination.elementBoundingBox;
      var focalOffset := Delta(origin.location, focal.location);
      var move := Delta(origin.location, destination.location);
      Ok(Rendered(
        data.origin.render,
        Style(props.zIndex,
              if opts.fadeOut then 0 else 1,
              ResolveDuration(props.duration, current, destination, dynamic),
              current.location.top, current.location.left,
              if opts.moveToTarget then destination.size.height else current.size.height,
              if opts.moveToTarget then destination.size.width else current.size.width,
              if opts.moveToTarget then Translate(move) else NoTransform),
        if !opts.moveToTarget then NoClass
        else ChildClass(if NegatableText(focalOffset) then Some(Negate(focalOffset)) else None)))
  }

  /**
   * The moved box lands on the destination exactly when the scroll correction
   * did not move the origin: its position is the corrected origin while its
   * translation was measured from the captured origin.
   */
  lemma LandsOnDestination(props: Props, data: AnimationData, fadeOut: bool,
                           recalc: BoundingBox -> BoundingBox,
                           dynamic: (BoundingBox, BoundingBox) -> int)
    requires data.origin.focalTargetElementBoundingBox.Some?
    ensures var r := Render(props, data, Options(true, fadeOut), recalc, dynamic).value.style;
      Shift(Location(r.top, r.left), r.transform.offset) == data.destination.elementBoundingBox.location
      <==> recalc(data.origin.elementBoundingBox).location == data.origin.elementBoundingBox.location
  {
  }

  /**
   * The duration does not depend on the options: the timer `animate` sets
   * from the duration computed by a preceding render of the same data equals
   * the duration its own render uses.
   */
  lemma DurationIgnoresOptions(props: Props, data: AnimationData, a: Options, b: Options,
                               recalc: BoundingBox -> BoundingBox,
                               dynamic: (BoundingBox, BoundingBox) -> int)
    requires data.origin.focalTargetElementBoundingBox.Some?
    ensures Render(props, data, a, recalc, dynamic).value.style.durationMs
         == Render(props, data, b, recalc, dynamic).value.style.durationMs
  {
  }

  class ConcealMove {
    const props: Props
    var calculatedDuration: int

    constructor(props: Props)
      ensures this.props == props && calculatedDuration == 0
    {
      this.props := props;
      calculatedDuration := 0;
    }

    /**
     * `renderAnimation`: throws when there is no focal box; otherwise records
     * the calculated duration and renders the origin's content.
     */
    method RenderAnimation(data: AnimationData, opts: Options,
                           recalc: BoundingBox -> BoundingBox,
                           dynamic: (BoundingBox, BoundingBox) -> int) returns (r: Result<Rendered>)
      modifies this`calculatedDuration
      ensures r == Render(props, data, opts, recalc, dynamic)
      ensures calculatedDuration == if r.Ok? then r.value.style.durationMs else old(calculatedDuration)
    {
      if data.origin.focalTargetElementBoundingBox.None? {
        return Err(FocalTargetMissing);
      }
      calculatedDuration := ResolveDuration(props.duration, recalc(data.origin.elementBoundingBox),
                                            data.destination.elementBoundingBox, dynamic);
      r := Render(props, data, opts, recalc, dynamic);
    }

    /** `beforeAnimate`: finishes at once, then renders in place (even when the render throws, it has finished). */
    method BeforeAnimate(data: AnimationData, recalc: BoundingBox -> BoundingBox,
                         dynamic: (BoundingBox, BoundingBox) -> int) returns (effects: seq<Effect>, r: Result<Rendered>)
      modifies this`calculatedDuration
      ensures effects == [FinishNow]
      ensures r == Render(props, data, Options(false, false), recalc, dynamic)
      ensures calculatedDuration == if r.Ok? then r.value.style.durationMs else old(calculatedDuration)
    {
      effects := [FinishNow];
      r := RenderAnimation(data, Options(false, false), recalc, dynamic);
    }

    /**
     * `animate`: sets the finish timer to the duration calculated so far
     * (the timer is set before this call renders), then renders the move.
     */
    method Animate(data: AnimationData, recalc: BoundingBox -> BoundingBox,
                   dynamic: (BoundingBox, BoundingBox) -> int) returns (effects: seq<Effect>, r: Result<Rendered>)
      modifies this`calculatedDuration
      ensures effects == [FinishAfter(old(calculatedDuration))]
      ensures r == Render(props, data, Options(true, false), recalc, dynamic)
      ensures calculatedDuration == if r.Ok? then r.value.style.durationMs else old(calculatedDuration)
    {
      effects := [FinishAfter(calculatedDuration)];
      r := RenderAnimation(data, Options(true, false), recalc, dynamic);
    }

    /** `afterAnimate`: makes the child opaque, finishes after 100 ms, renders the moved box fading out. */
    method AfterAnimate(data: AnimationData, recalc: BoundingBox -> BoundingBox,
                        dynamic: (BoundingBox, BoundingBox) -> int) returns (effects: seq<Effect>, r: Result<Rendered>)
      modifies this`calculatedDuration
      ensures effects == [SetChildOpacity(1), FinishAfter(AfterAnimateDelay)]
      ensures r == Render(props, data, Options(true, true), recalc, dynamic)
      ensures calculatedDuration == if r.Ok? then r.value.style.durationMs else old(calculatedDuration)
    {
      effects := [SetChildOpacity(1), FinishAfter(AfterAnimateDelay)];
      r := RenderAnimation(data, Options(true, true), recalc, dynamic);
    }
  }
}
