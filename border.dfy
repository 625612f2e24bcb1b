/** The splitter engine of the `appBorder` directive: while the button is down, the element
    follows the pointer along one axis, clamped on one side by a configured boundary, and on
    release its position is emitted. */
module Border {
  import opened Common

  /** The `direction` field after `setDirection`. */
  datatype Direction = Horizontal | Vertical

  /** A `left` or `top` border is kept at or before its boundary; every other value of
      `appBorder`, an unset one included, keeps the border at or after it. */
  predicate ClampsBelow(appBorder: Option<string>) {
    appBorder == Some("left") || appBorder == Some("top")
  }

  /** `checkBorder`: the position the border may take for the pointer coordinate `pos`.
      An unset `boundary` makes both comparisons of the source false, so `pos` passes through. */
  function CheckBorder(appBorder: Option<string>, boundary: Option<int>, pos: int): (r: int)
    ensures boundary.None? ==> r == pos
    ensures boundary.Some? && ClampsBelow(appBorder) ==>
              r <= boundary.value && (pos < boundary.value ==> r == pos) &&
              (pos >= boundary.value ==> r == boundary.value)
    ensures boundary.Some? && !ClampsBelow(appBorder) ==>
              r >= boundary.value && (pos > boundary.value ==> r == pos) &&
              (pos <= boundary.value ==> r == boundary.value)
  {
    match boundary
    case None => pos
    case Some(b) =>
      if ClampsBelow(appBorder) then (if pos >= b then b else pos)
      else (if pos <= b then b else pos)
  }

  /** Clamping an already clamped position changes nothing. */
  lemma CheckBorderIdempotent(appBorder: Option<string>, boundary: Option<int>, pos: int)
    ensures CheckBorder(appBorder, boundary, CheckBorder(appBorder, boundary, pos)) == CheckBorder(appBorder, boundary, pos)
  {
  }

  /** `setDirection`: a `left` or `right` border is vertical, every other one horizontal. */
  function DirectionOf(appBorder: Option<string>): Direction {
    if appBorder == Some("left") || appBorder == Some("right") then Vertical else Horizontal
  }

  /** One style write of `onMouseMove`: the `top` or the `left` style, in pixels. */
  datatype AxisWrite = TopAt(px: int) | LeftAt(px: int)

  /** The write `onMouseMove` makes while the button is down: a horizontal border moves
      vertically with `clientY`, a vertical border horizontally with `clientX`. */
  function MoveWrite(direction: Direction, appBorder: Option<string>, boundary: Option<int>, p: Pointer): (w: AxisWrite)
    ensures w.TopAt? <==> direction == Horizontal
    ensures boundary.None? ==> w.px == (if direction == Horizontal then p.clientY else p.clientX)
    ensures boundary.Some? ==>
              (ClampsBelow(appBorder) ==> w.px <= boundary.value) &&
              (!ClampsBelow(appBorder) ==> w.px >= boundary.value)
  {
    if direction == Horizontal then TopAt(CheckBorder(appBorder, boundary, p.clientY))
    else LeftAt(CheckBorder(appBorder, boundary, p.clientX))
  }

  /** The four named borders, with the direction fixed from the same `appBorder`: each moves
      across its own orientation and stays on its own side of the boundary. */
  lemma NamedBorders(b: int, p: Pointer)
    ensures var w := MoveWrite(DirectionOf(Some("left")), Some("left"), Some(b), p);
      w.LeftAt? && w.px <= b && (p.clientX < b ==> w.px == p.clientX)
    ensures var w := MoveWrite(DirectionOf(Some("right")), Some("right"), Some(b), p);
      w.LeftAt? && w.px >= b && (p.clientX > b ==> w.px == p.clientX)
    ensures var w := MoveWrite(DirectionOf(Some("top")), Some("top"), Some(b), p);
      w.TopAt? && w.px <= b && (p.clientY < b ==> w.px == p.clientY)
    ensures var w := MoveWrite(DirectionOf(Some("bottom")), Some("bottom"), Some(b), p);
      w.TopAt? && w.px >= b && (p.clientY > b ==> w.px == p.clientY)
  {
  }

  /** The styles the directive writes; `None` is a style never written or removed. */
  datatype BorderStyle = BorderStyle(top: Option<int>, left: Option<int>, cursor: Option<Cursor>)

  const NoBorderStyle: BorderStyle := BorderStyle(None, None, None)

  function Place(st: BorderStyle, w: AxisWrite): BorderStyle {
    match w
    case TopAt(v) => st.(top := Some(v))
    case LeftAt(v) => st.(left := Some(v))
  }

  class BorderDirective {
    // inputs
    var appBorder: Option<string>
    var boundary: Option<int>

    var mousedown: bool
    var direction: Direction

    // effects on the host: renderer writes, the overlay child, emissions of `pos`
    var style: BorderStyle
    var overlayEnabled: bool
    var emitted: seq<int>

    /** The constructor followed by `ngOnInit`: the inputs are bound and the direction is
        fixed once from them. */
    constructor (appBorder: Option<string>, boundary: Option<int>)
      ensures this.appBorder == appBorder && this.boundary == boundary
      ensures direction == DirectionOf(appBorder)
      ensures !mousedown && !overlayEnabled && style == NoBorderStyle && emitted == []
    {
      this.appBorder := appBorder;
      this.boundary := boundary;
      mousedown := false;
      style := NoBorderStyle;
      overlayEnabled := false;
      emitted := [];
      new;
      SetDirection();
    }

    method SetDirection()
      modifies this`direction
      ensures direction == DirectionOf(appBorder)
    {
      direction := DirectionOf(appBorder);
    }

    method OnMouseEnter()
      modifies this`style
      ensures style == old(style).(cursor := Some(if direction == Horizontal then RowResize else ColResize))
    {
      var cursor := if direction == Horizontal then RowResize else ColResize;
      style := style.(cursor := Some(cursor));
    }

    method OnMouseLeave()
      modifies this`style
      ensures style == old(style).(cursor := None)
    {
      style := style.(cursor := None);
    }

    /** Moves the border only while the button is down; otherwise nothing changes. */
    method OnMouseMove(p: Pointer)
      modifies this`style
      ensures mousedown ==> style == Place(old(style), MoveWrite(direction, appBorder, boundary, p))
      ensures !mousedown ==> style == old(style)
    {
      if mousedown {
        var horizontal := direction == Horizontal;
        var pos := CheckBorder(appBorder, boundary, if direction == Vertical then p.clientX else p.clientY);
        if horizontal {
          style := style.(top := Some(pos));
        } else {
          style := style.(left := Some(pos));
        }
      }
    }

    method OnMouseDown()
      modifies this`mousedown, this`overlayEnabled
      ensures mousedown && overlayEnabled
    {
      mousedown := true;
      overlayEnabled := true;
    }

    /** Releases the button and emits the element's current top (horizontal) or left (vertical). */
    method OnMouseUp(rect: Rect)
      modifies this`mousedown, this`overlayEnabled, this`emitted
      ensures !mousedown && !overlayEnabled
      ensures emitted == old(emitted) + [if direction == Horizontal then rect.top else rect.left]
    {
      mousedown := false;
      overlayEnabled := false;
      emitted := emitted + [if direction == Horizontal then rect.top else rect.left];
    }
  }

  /** A left splitter limited to x <= 300: dragged to x = 350 it stops at 300. */
  method LeftSplitterGesture()
  {
    var d := new BorderDirective(Some("left"), Some(300));
    assert d.direction == Vertical;
    d.OnMouseMove(Pointer(350, 10));
    assert d.style == NoBorderStyle;
    d.OnMouseEnter();
    assert d.style.cursor == Some(ColResize);
    d.OnMouseDown();
    d.OnMouseMove(Pointer(250, 10));
    assert d.style.left == Some(250);
    d.OnMouseMove(Pointer(350, 10));
    assert d.style.left == Some(300) && d.style.top == None;
    d.OnMouseUp(Rect(0, 300, 4, 600));
    assert d.emitted == [300];
    d.OnMouseMove(Pointer(100, 10));
    assert d.style.left == Some(300);
  }
}
