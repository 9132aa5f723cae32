/** The PanSVG custom element without its DOM: the private state it keeps and
    the handlers that update it in place. Viewport sizes, pointer positions,
    wheel deltas, frame timestamps and the URL "play" flag are parameters. */
module PanSvgElement {
  import opened ViewportMath
  import opened Tour
  import opened Readiness

  /** One entry of the image option table; width and height are 0 when absent. */
  datatype ImageOption = ImageOption(name: string, x: real, y: real, width: real, height: real, hover: bool)

  /** An image created for one theme from one option. */
  datatype Image = Image(theme: string, option: ImageOption)

  const Themes: seq<string> := ["light", "dark"]

  /** The option table in insertion order; the map comes first. */
  const ImageOptions: seq<ImageOption> := [
    ImageOption("map", 0.0, 0.0, ContentWidth, ContentHeight, false),
    ImageOption("itesa", 2262.0, 669.0, 0.0, 0.0, true),
    ImageOption("itla", 2492.0, 811.0, 0.0, 0.0, true),
    ImageOption("several", 1918.0, 1007.0, 0.0, 0.0, true),
    ImageOption("avante", 1450.0, 1169.0, 0.0, 0.0, true),
    ImageOption("capital", 1373.0, 862.0, 0.0, 0.0, true),
    ImageOption("pixel", 810.0, 1093.0, 0.0, 0.0, true),
    ImageOption("planttherapy", 962.0, 376.0, 0.0, 0.0, true),
    ImageOption("enovational", 2492.0, 184.0, 0.0, 0.0, true),
    ImageOption("santodomingo", 1660.0, 811.0, 0.0, 0.0, false),
    ImageOption("twinfalls", 840.0, 308.0, 0.0, 0.0, false),
    ImageOption("dc", 2379.0, 129.0, 0.0, 0.0, false)
  ]

  /** The k-th image that setup creates: themes in the outer order, options in the inner. */
  function ImageAt(k: nat): Image
    requires k < |Themes| * |ImageOptions|
  {
    Image(Themes[k / |ImageOptions|], ImageOptions[k % |ImageOptions|])
  }

  /** Every image that setup creates, in creation order. */
  function AllImages(): (s: seq<Image>)
    ensures |s| == |Themes| * |ImageOptions| == 24
    ensures s[0] == Image("light", ImageOptions[0])
    ensures s[0].option.width == ContentWidth && s[0].option.height == ContentHeight
  {
    seq(|Themes| * |ImageOptions|, k requires 0 <= k < |Themes| * |ImageOptions| => ImageAt(k))
  }

  /** A mouse or touch event: its offset position and its touch points (none for a mouse). */
  datatype PointerEvent = PointerEvent(offset: Point, touches: seq<Point>)

  /** pointerPos: the first touch point if there is one, else the event's offset position. */
  function PointerPos(e: PointerEvent): Point
  {
    if |e.touches| > 0 then e.touches[0] else e.offset
  }

  /** Touch and mouse input give positions of the same shape: a touch whose first
      point is q and a mouse event whose offset is q both yield q, whatever the
      touch event's own offset and further touch points. */
  lemma PointerPosNormalises(q: Point, touchOffset: Point, moreTouches: seq<Point>)
    ensures PointerPos(PointerEvent(q, [])) == q
    ensures PointerPos(PointerEvent(touchOffset, [q] + moreTouches)) == q
  {
  }

  class PanSvg {
    var playing: bool
    var animStartTime: real
    var totalImages: nat
    var loadedImages: nat
    var ready: bool
    var offsetX: real
    var offsetY: real
    var scale: real
    var startX: real
    var startY: real
    var isDragging: bool
    const animationFrames: seq<Keyframe>
    var imgs: seq<Image>

    /** The ready tracker's part of the state. */
    ghost function ReadyState(): Counter
      reads this
    {
      Counter(totalImages, loadedImages, ready)
    }

    /** The invariant every handler keeps: the configuration part, and offsets
        that never move the content's top-left corner into the viewport. */
    ghost predicate Valid()
      reads this
    {
      Configured() && offsetX <= 0.0 && offsetY <= 0.0
    }

    /** Everything of Valid() except the offsets, which hold between an
        offset update and the clamp that follows it. */
    ghost predicate Configured()
      reads this
    {
      && 0.0 < scale <= MaxScale
      && Animatable(animationFrames)
      && Consistent(ReadyState())
      && totalImages == |imgs|
      && (|imgs| > 0 ==> imgs[0].option.width == ContentWidth && imgs[0].option.height == ContentHeight)
    }

    /** Both offsets lie within the clamp bounds for this viewport at the current scale. */
    ghost predicate Clamped(viewW: real, viewH: real)
      reads this
    {
      && MinOffset(viewW, ContentWidth * scale) <= offsetX <= 0.0
      && MinOffset(viewH, ContentHeight * scale) <= offsetY <= 0.0
    }

    /** The initial private state. */
    constructor (innerHeight: real)
      ensures Valid()
      ensures !playing && animStartTime == 0.0
      ensures totalImages == 0 && loadedImages == 0 && !ready
      ensures offsetX == 0.0 && offsetY == 0.0 && scale == 1.0
      ensures startX == 0.0 && startY == 0.0 && !isDragging
      ensures animationFrames == TourFrames(innerHeight) && imgs == []
    {
      playing := false;
      animStartTime := 0.0;
      totalImages := 0;
      loadedImages := 0;
      ready := false;
      offsetX := 0.0;
      offsetY := 0.0;
      scale := 1.0;
      startX := 0.0;
      startY := 0.0;
      isDragging := false;
      animationFrames := TourFrames(innerHeight);
      imgs := [];
    }

    /** connectedCallback: create the images, then start the tour when the page
        URL carries the play flag. */
    method ConnectedCallback(playFlag: bool)
      requires Valid() && imgs == [] && loadedImages == 0
      modifies this`imgs, this`totalImages, this`playing
      ensures Valid()
      ensures imgs == AllImages() && totalImages == |AllImages()|
      ensures playing == (old(playing) || playFlag)
    {
      SetupImages();
      SetupAnimation(playFlag);
    }

    /** #setupImages: one image per theme and option, each pushed and counted. */
    method SetupImages()
      requires Valid() && imgs == [] && loadedImages == 0
      modifies this`imgs, this`totalImages
      ensures Valid()
      ensures imgs == AllImages() && totalImages == |AllImages()|
    {
      var ti := 0;
      while ti < |Themes|
        invariant 0 <= ti <= |Themes|
        invariant |imgs| == ti * |ImageOptions| && totalImages == |imgs|
        invariant forall k :: 0 <= k < |imgs| ==> imgs[k] == ImageAt(k)
      {
        var oi := 0;
        while oi < |ImageOptions|
          invariant 0 <= oi <= |ImageOptions|
          invariant |imgs| == ti * |ImageOptions| + oi && totalImages == |imgs|
          invariant forall k :: 0 <= k < |imgs| ==> imgs[k] == ImageAt(k)
        {
          imgs := imgs + [Image(Themes[ti], ImageOptions[oi])];
          totalImages := totalImages + 1;
          oi := oi + 1;
        }
        ti := ti + 1;
      }
      assert imgs == AllImages();
    }

    /** The play-flag branch of #setupAnimation. */
    method SetupAnimation(playFlag: bool)
      requires Valid()
      modifies this`playing
      ensures Valid()
      ensures playing == (old(playing) || playFlag)
    {
      if playFlag {
        playing := true;
      }
    }

    /** #checkReady. */
    method CheckReady()
      requires Valid()
      modifies this`loadedImages, this`ready
      ensures Valid()
      ensures ReadyState() == Readiness.CheckReady(old(ReadyState()))
    {
      loadedImages := loadedImages + 1;
      if loadedImages >= totalImages {
        ready := true;
      }
    }

    /** The load and the error listener of every image: both run #checkReady. */
    method OnImageSettled(signal: ImageSignal)
      requires Valid()
      modifies this`loadedImages, this`ready
      ensures Valid()
      ensures ReadyState() == Settle(old(ReadyState()), [signal])
    {
      CheckReady();
    }

    /** #updateTransform: clamp both offsets for the current viewport and scale. */
    method UpdateTransform(viewW: real, viewH: real)
      requires Configured()
      modifies this`offsetX, this`offsetY
      ensures Valid()
      ensures offsetX == ClampOffset(old(offsetX), viewW, ContentWidth * scale)
      ensures offsetY == ClampOffset(old(offsetY), viewH, ContentHeight * scale)
      ensures Clamped(viewW, viewH)
      ensures old(Clamped(viewW, viewH)) ==> offsetX == old(offsetX) && offsetY == old(offsetY)
    {
      var minX := MinOffset(viewW, ContentWidth * scale);
      var minY := MinOffset(viewH, ContentHeight * scale);
      offsetX := Min(Max(offsetX, minX), 0.0);
      offsetY := Min(Max(offsetY, minY), 0.0);
    }

    /** animate: one tour frame at timestamp ts. */
    method Animate(ts: real, viewW: real, viewH: real)
      requires Valid()
      modifies this`animStartTime, this`offsetX, this`offsetY
      ensures Valid()
      ensures !old(playing) ==> animStartTime == old(animStartTime) && offsetX == old(offsetX) && offsetY == old(offsetY)
      ensures old(playing) ==> animStartTime == (if old(animStartTime) == 0.0 then ts else old(animStartTime))
      ensures old(playing) ==> Clamped(viewW, viewH)
      ensures old(playing) ==>
        var camera := CameraAt(animationFrames, Progress(ts, animStartTime));
        && offsetX == ClampOffset(camera.x, viewW, ContentWidth * scale)
        && offsetY == ClampOffset(camera.y, viewH, ContentHeight * scale)
    {
      if !playing {
        return;
      }
      if animStartTime == 0.0 {
        animStartTime := ts;
      }
      var progress := TruncRem1((ts - animStartTime) / AnimDuration);
      var i := FindIndexFrom(animationFrames, progress, 0);
      if i == -1 {
        i := 0;
      }
      var a := animationFrames[i];
      var b := animationFrames[i + 1];
      var localT := (progress - a.t) / (b.t - a.t);
      offsetX := Lerp(a.x, b.x, localT);
      offsetY := Lerp(a.y, b.y, localT);
      UpdateTransform(viewW, viewH);
    }

    /** onDown: start a drag anchored at the pointer minus the current offset. */
    method OnDown(e: PointerEvent)
      requires Valid()
      modifies this`isDragging, this`startX, this`startY
      ensures Valid()
      ensures isDragging
      ensures startX == PointerPos(e).x - offsetX && startY == PointerPos(e).y - offsetY
    {
      isDragging := true;
      var p := PointerPos(e);
      startX := p.x - offsetX;
      startY := p.y - offsetY;
    }

    /** onMove: while dragging, the offset is the pointer minus the anchor, clamped. */
    method OnMove(e: PointerEvent, viewW: real, viewH: real)
      requires Valid()
      modifies this`offsetX, this`offsetY
      ensures Valid()
      ensures !isDragging ==> offsetX == old(offsetX) && offsetY == old(offsetY)
      ensures isDragging ==>
        && offsetX == ClampOffset(PointerPos(e).x - startX, viewW, ContentWidth * scale)
        && offsetY == ClampOffset(PointerPos(e).y - startY, viewH, ContentHeight * scale)
    {
      if !isDragging {
        return;
      }
      var p := PointerPos(e);
      offsetX := p.x - startX;
      offsetY := p.y - startY;
      UpdateTransform(viewW, viewH);
    }

    /** onUp, bound to mouseup, mouseleave and touchend: end the drag. */
    method OnUp()
      requires Valid()
      modifies this`isDragging
      ensures Valid()
      ensures !isDragging
    {
      isDragging := false;
    }

    /** A press followed by a move to the same point leaves a clamped offset where it was. */
    method DragRoundTrip(e: PointerEvent, viewW: real, viewH: real)
      requires Valid() && Clamped(viewW, viewH)
      modifies this`isDragging, this`startX, this`startY, this`offsetX, this`offsetY
      ensures Valid() && isDragging
      ensures offsetX == old(offsetX) && offsetY == old(offsetY)
    {
      OnDown(e);
      OnMove(e, viewW, viewH);
    }

    /** The wheel listener: zoom about the cursor, then clamp. */
    method Wheel(cursor: Point, deltaY: real, viewW: real, viewH: real)
      requires Valid() && (viewW > 0.0 || viewH > 0.0)
      modifies this`offsetX, this`offsetY, this`scale
      ensures Valid()
      ensures scale == ZoomScale(old(scale), deltaY, viewW, viewH)
      ensures offsetX == ClampOffset(ZoomOffset(old(offsetX), cursor.x, old(scale), scale), viewW, ContentWidth * scale)
      ensures offsetY == ClampOffset(ZoomOffset(old(offsetY), cursor.y, old(scale), scale), viewH, ContentHeight * scale)
      ensures Clamped(viewW, viewH)
      ensures MinScale(viewW, viewH) <= MaxScale ==>
        offsetX + ContentWidth * scale >= viewW && offsetY + ContentHeight * scale >= viewH
    {
      var newScale := ZoomScale(scale, deltaY, viewW, viewH);
      offsetX := ZoomOffset(offsetX, cursor.x, scale, newScale);
      offsetY := ZoomOffset(offsetY, cursor.y, scale, newScale);
      scale := newScale;
      ghost var zoomedX, zoomedY := offsetX, offsetY;
      UpdateTransform(viewW, viewH);
      if MinScale(viewW, viewH) <= MaxScale {
        ClampCoversView(zoomedX, zoomedY, viewW, viewH, scale);
      }
    }
  }
}
