/** The edge/corner resize engine of the `appResizable` directive.

    The pure part classifies a pointer against the element's edges (zones), chooses the
    resize mode a mouse-down latches, chooses the cursor hint, and computes the new
    geometry from the start snapshot and the pointer delta. The class `ResizableDirective`
    holds the directive's mutable fields and its three mouse handlers; renderer writes go
    to the `style` record and output emissions are appended to the `emitted` log. */
module Resizable {
  import opened Common

  /** The directive's private `boundarySize`: how many pixels from an edge still count as that edge. */
  const BoundarySize: int := 8

  /** The `resizableOn*` inputs together with the boundary size. */
  datatype Config = Config(
    resizableOnTop: bool,
    resizableOnRight: bool,
    resizableOnBottom: bool,
    resizableOnLeft: bool,
    boundarySize: int)

  /** One boolean per edge: used both for the zones a pointer is in and for the `*IsResizable` flags. */
  datatype Edges = Edges(top: bool, right: bool, bottom: bool, left: bool) {
    predicate Any() { top || right || bottom || left }
    predicate Vertical() { top || bottom }
    predicate Horizontal() { left || right }
    function Union(other: Edges): Edges {
      Edges(top || other.top, right || other.right, bottom || other.bottom, left || other.left)
    }
  }

  const NoEdges: Edges := Edges(false, false, false, false)

  /** Every edge set in `m` is also set in `z`. */
  predicate Covers(z: Edges, m: Edges) {
    (m.top ==> z.top) && (m.right ==> z.right) && (m.bottom ==> z.bottom) && (m.left ==> z.left)
  }

  // ---------------------------------------------------------------------------------------
  // Zone classification

  predicate InsideTop(cfg: Config, rect: Rect, p: Pointer) {
    cfg.resizableOnTop && rect.top + cfg.boundarySize > p.clientY
  }

  predicate InsideRight(cfg: Config, rect: Rect, p: Pointer) {
    cfg.resizableOnRight && rect.Right() - cfg.boundarySize < p.clientX
  }

  predicate InsideBottom(cfg: Config, rect: Rect, p: Pointer) {
    cfg.resizableOnBottom && rect.Bottom() - cfg.boundarySize < p.clientY
  }

  predicate InsideLeft(cfg: Config, rect: Rect, p: Pointer) {
    cfg.resizableOnLeft && rect.left + cfg.boundarySize > p.clientX
  }

  /** The four edge zones the pointer is in. The zone of an enabled edge is the half-plane
      beyond the line `boundarySize` pixels inside that edge (over the element, the band along
      the edge); a disabled edge has no zone. */
  function Zones(cfg: Config, rect: Rect, p: Pointer): (z: Edges)
    ensures z.top <==> cfg.resizableOnTop && p.clientY - rect.top < cfg.boundarySize
    ensures z.right <==> cfg.resizableOnRight && rect.Right() - p.clientX < cfg.boundarySize
    ensures z.bottom <==> cfg.resizableOnBottom && rect.Bottom() - p.clientY < cfg.boundarySize
    ensures z.left <==> cfg.resizableOnLeft && p.clientX - rect.left < cfg.boundarySize
    // opposite zones cannot overlap once the element is at least two bands wide
    ensures rect.height >= 2 * cfg.boundarySize ==> !(z.top && z.bottom)
    ensures rect.width >= 2 * cfg.boundarySize ==> !(z.left && z.right)
    // the interior, shrunk by the band on every side, is in no zone
    ensures (rect.left + cfg.boundarySize <= p.clientX <= rect.Right() - cfg.boundarySize &&
             rect.top + cfg.boundarySize <= p.clientY <= rect.Bottom() - cfg.boundarySize) ==> !z.Any()
  {
    Edges(InsideTop(cfg, rect, p), InsideRight(cfg, rect, p), InsideBottom(cfg, rect, p), InsideLeft(cfg, rect, p))
  }

  predicate InsideTopOrBottom(z: Edges) { z.top || z.bottom }

  predicate InsideLeftOrRight(z: Edges) { z.left || z.right }

  /** `isInsideBoundary`: the pointer is in some edge zone. */
  predicate InsideBoundary(z: Edges) { InsideTopOrBottom(z) || InsideLeftOrRight(z) }

  predicate InsideTopRight(z: Edges) { z.top && z.right }

  predicate InsideBottomRight(z: Edges) { z.bottom && z.right }

  predicate InsideBottomLeft(z: Edges) { z.bottom && z.left }

  predicate InsideTopLeft(z: Edges) { z.top && z.left }

  // ---------------------------------------------------------------------------------------
  // Mode selection

  /** The flags that `setResizeMode` sets for the zones `z`: the first zone that holds, in the
      order top-right, bottom-right, bottom-left, top-left, top, right, bottom, left. */
  function ModeFor(z: Edges): (m: Edges)
    // only edges the pointer is at
    ensures Covers(z, m)
    // at most one edge per axis
    ensures !(m.top && m.bottom) && !(m.left && m.right)
    // some edge is chosen exactly when the pointer is in some zone
    ensures m.Any() <==> InsideBoundary(z)
    // a corner zone always yields a corner resize
    ensures z.Vertical() && z.Horizontal() ==> m.Vertical() && m.Horizontal()
  {
    if InsideTopRight(z) then Edges(true, true, false, false)
    else if InsideBottomRight(z) then Edges(false, true, true, false)
    else if InsideBottomLeft(z) then Edges(false, false, true, true)
    else if InsideTopLeft(z) then Edges(true, false, false, true)
    else if z.top then Edges(true, false, false, false)
    else if z.right then Edges(false, true, false, false)
    else if z.bottom then Edges(false, false, true, false)
    else if z.left then Edges(false, false, false, true)
    else NoEdges
  }

  /** The candidate modes in the order the source tries them. */
  const Priority: seq<Edges> := [
    Edges(true, true, false, false), Edges(false, true, true, false),
    Edges(false, false, true, true), Edges(true, false, false, true),
    Edges(true, false, false, false), Edges(false, true, false, false),
    Edges(false, false, true, false), Edges(false, false, false, true)]

  /** The index of the first candidate all of whose edges are zones of `z`, or `|cands|`. */
  function FirstMatch(cands: seq<Edges>, z: Edges): (k: nat)
    ensures k <= |cands|
    ensures k < |cands| ==> Covers(z, cands[k])
    ensures forall j :: 0 <= j < k ==> !Covers(z, cands[j])
    decreases |cands|
  {
    if cands == [] then 0
    else if Covers(z, cands[0]) then 0
    else 1 + FirstMatch(cands[1..], z)
  }

  /** A reference definition of the mode: the first entry of `Priority` the zones cover. */
  function ReferenceMode(z: Edges): Edges {
    var k := FirstMatch(Priority, z);
    if k < |Priority| then Priority[k] else NoEdges
  }

  /** The if/else chain of `setResizeMode` is the first-match search over `Priority`. */
  lemma ModeIsFirstMatch(z: Edges)
    ensures ModeFor(z) == ReferenceMode(z)
  {
    var k, c := FirstMatch(Priority, z), Priority;
    assert c[0] == Edges(true, true, false, false) && c[1] == Edges(false, true, true, false);
    assert c[2] == Edges(false, false, true, true) && c[3] == Edges(true, false, false, true);
    assert c[4] == Edges(true, false, false, false) && c[5] == Edges(false, true, false, false);
    assert c[6] == Edges(false, false, true, false) && c[7] == Edges(false, false, false, true);
    // The chain's branch i is taken exactly when candidate i is the first one covered.
    var i := if InsideTopRight(z) then 0 else if InsideBottomRight(z) then 1
             else if InsideBottomLeft(z) then 2 else if InsideTopLeft(z) then 3
             else if z.top then 4 else if z.right then 5 else if z.bottom then 6
             else if z.left then 7 else 8;
    assert forall j :: 0 <= j < i ==> !Covers(z, c[j]);
    assert i < 8 ==> Covers(z, c[i]) && ModeFor(z) == c[i];
  }

  // ---------------------------------------------------------------------------------------
  // Cursor hint

  /** The cursor `setResizeCursors` writes for the zones `z`; `None` means the style is removed. */
  function CursorFor(z: Edges): (c: Option<Cursor>)
    // the hint always announces the resize that a mouse-down at the same place would start
    ensures c == ModeCursor(ModeFor(z))
  {
    if InsideTopRight(z) then Some(NeswResize)
    else if InsideBottomRight(z) then Some(NwseResize)
    else if InsideBottomLeft(z) then Some(NeswResize)
    else if InsideTopLeft(z) then Some(NwseResize)
    else if InsideTopOrBottom(z) then Some(RowResize)
    else if InsideLeftOrRight(z) then Some(ColResize)
    else None
  }

  /** The cursor that shows a resize mode: a diagonal for a corner (along the diagonal that
      joins that corner to the opposite one), a vertical or horizontal arrow for one edge. */
  function ModeCursor(m: Edges): Option<Cursor> {
    if m.Vertical() && m.Horizontal() then
      Some(if (m.top && m.right) || (m.bottom && m.left) then NeswResize else NwseResize)
    else if m.Vertical() then Some(RowResize)
    else if m.Horizontal() then Some(ColResize)
    else None
  }

  // ---------------------------------------------------------------------------------------
  // Start snapshot and geometry

  /** The six `*OnStart` fields. */
  datatype Snapshot = Snapshot(
    mouseXOnStart: int,
    mouseYOnStart: int,
    elemTopOnStart: int,
    elemWidthOnStart: int,
    elemHeightOnStart: int,
    elemLeftOnStart: int)

  /** The snapshot after the `make*Resizable` calls for the mode `m` at pointer `p` on `rect`. */
  function Latch(s: Snapshot, m: Edges, rect: Rect, p: Pointer): (s': Snapshot)
    ensures !m.Any() ==> s' == s
  {
    s.(mouseYOnStart := if m.Vertical() then p.clientY else s.mouseYOnStart,
       elemTopOnStart := if m.top then rect.top else s.elemTopOnStart,
       elemHeightOnStart := if m.Vertical() then rect.height else s.elemHeightOnStart,
       mouseXOnStart := if m.Horizontal() then p.clientX else s.mouseXOnStart,
       elemWidthOnStart := if m.Horizontal() then rect.width else s.elemWidthOnStart,
       elemLeftOnStart := if m.left then rect.left else s.elemLeftOnStart)
  }

  /** The result of resizing at the top or the left edge: the new position, if it is written,
      and the new size. */
  datatype Resized = Resized(offset: Option<int>, size: int)

  /** `resizeTop`: new top (written only while the raw height is not negative) and new height. */
  function TopResize(s: Snapshot, p: Pointer): (r: Resized)
    ensures r.size >= 0
    // while the raw height is not negative, the top follows the pointer and the bottom edge stays put
    ensures s.elemHeightOnStart - (p.clientY - s.mouseYOnStart) >= 0 ==>
              r.offset == Some(s.elemTopOnStart + (p.clientY - s.mouseYOnStart)) &&
              r.offset.value + r.size == s.elemTopOnStart + s.elemHeightOnStart
    // past the bottom edge, the top is not written and the height collapses to 0
    ensures s.elemHeightOnStart - (p.clientY - s.mouseYOnStart) < 0 ==> r == Resized(None, 0)
    ensures p.clientY == s.mouseYOnStart && s.elemHeightOnStart >= 0 ==>
              r == Resized(Some(s.elemTopOnStart), s.elemHeightOnStart)
  {
    var dy := p.clientY - s.mouseYOnStart;
    var tempHeight := s.elemHeightOnStart - dy;
    Resized(if tempHeight >= 0 then Some(s.elemTopOnStart + dy) else None,
            if tempHeight > 0 then tempHeight else 0)
  }

  /** `resizeRight`: the new width. */
  function RightResize(s: Snapshot, p: Pointer): (width: int)
    ensures width >= 0
    // the right edge follows the pointer until the width would become negative
    ensures s.elemWidthOnStart + (p.clientX - s.mouseXOnStart) >= 0 ==>
              width == s.elemWidthOnStart + (p.clientX - s.mouseXOnStart)
    ensures s.elemWidthOnStart + (p.clientX - s.mouseXOnStart) < 0 ==> width == 0
    ensures p.clientX == s.mouseXOnStart && s.elemWidthOnStart >= 0 ==> width == s.elemWidthOnStart
  {
    var tempWidth := s.elemWidthOnStart + (p.clientX - s.mouseXOnStart);
    if tempWidth > 0 then tempWidth else 0
  }

  /** `resizeBottom`: the new height. */
  function BottomResize(s: Snapshot, p: Pointer): (height: int)
    ensures height >= 0
    ensures s.elemHeightOnStart + (p.clientY - s.mouseYOnStart) >= 0 ==>
              height == s.elemHeightOnStart + (p.clientY - s.mouseYOnStart)
    ensures s.elemHeightOnStart + (p.clientY - s.mouseYOnStart) < 0 ==> height == 0
    ensures p.clientY == s.mouseYOnStart && s.elemHeightOnStart >= 0 ==> height == s.elemHeightOnStart
  {
    var tempHeight := s.elemHeightOnStart + (p.clientY - s.mouseYOnStart);
    if tempHeight > 0 then tempHeight else 0
  }

  /** `resizeLeft`: new left (written only while the raw width is not negative) and new width. */
  function LeftResize(s: Snapshot, p: Pointer): (r: Resized)
    ensures r.size >= 0
    // while the raw width is not negative, the left edge follows the pointer and the right edge stays put
    ensures s.elemWidthOnStart - (p.clientX - s.mouseXOnStart) >= 0 ==>
              r.offset == Some(s.elemLeftOnStart + (p.clientX - s.mouseXOnStart)) &&
              r.offset.value + r.size == s.elemLeftOnStart + s.elemWidthOnStart
    ensures s.elemWidthOnStart - (p.clientX - s.mouseXOnStart) < 0 ==> r == Resized(None, 0)
    ensures p.clientX == s.mouseXOnStart && s.elemWidthOnStart >= 0 ==>
              r == Resized(Some(s.elemLeftOnStart), s.elemWidthOnStart)
  {
    var dx := p.clientX - s.mouseXOnStart;
    var tempWidth := s.elemWidthOnStart - dx;
    Resized(if tempWidth >= 0 then Some(s.elemLeftOnStart + dx) else None,
            if tempWidth > 0 then tempWidth else 0)
  }

  // ---------------------------------------------------------------------------------------
  // What a mouse-move writes and emits

  /** The element styles the directive writes; `None` is a style never written or removed.
      `translucent` stands for the `opacity: 0.5` style. */
  datatype ElementStyle = ElementStyle(
    top: Option<int>,
    left: Option<int>,
    width: Option<int>,
    height: Option<int>,
    cursor: Option<Cursor>,
    translucent: bool)

  const NoStyle: ElementStyle := ElementStyle(None, None, None, None, None, false)

  /** One value sent on an output of the directive. */
  datatype Output = Width(width: int) | Height(height: int) | Resizing(active: bool)

  /** The edges, in the order in which `onMouseMove` handles them. */
  datatype Side = Top | Right | Bottom | Left

  /** The position of a side in that order. */
  function Rank(side: Side): nat {
    match side
    case Top => 0
    case Right => 1
    case Bottom => 2
    case Left => 3
  }

  predicate IsSet(f: Edges, side: Side) {
    match side
    case Top => f.top
    case Right => f.right
    case Bottom => f.bottom
    case Left => f.left
  }

  function ActiveSides(f: Edges): (sides: seq<Side>)
    // exactly the sides whose flag is set ...
    ensures forall side :: side in sides <==> IsSet(f, side)
    // ... each once, in the fixed order
    ensures forall i, j :: 0 <= i < j < |sides| ==> Rank(sides[i]) < Rank(sides[j])
  {
    (if f.top then [Top] else []) + (if f.right then [Right] else []) +
    (if f.bottom then [Bottom] else []) + (if f.left then [Left] else [])
  }

  /** The value emitted for one active edge. */
  function OutputFor(side: Side, s: Snapshot, p: Pointer): Output {
    match side
    case Top => Height(TopResize(s, p).size)
    case Right => Width(RightResize(s, p))
    case Bottom => Height(BottomResize(s, p))
    case Left => Width(LeftResize(s, p).size)
  }

  predicate SizeNonNegative(o: Output) {
    match o
    case Width(w) => w >= 0
    case Height(h) => h >= 0
    case Resizing(_) => true
  }

  /** What `onMouseMove` emits for one edge: its value when the edge's flag `on` is set. */
  function EmitIf(on: bool, side: Side, s: Snapshot, p: Pointer): seq<Output> {
    if on then [OutputFor(side, s, p)] else []
  }

  /** The values `onMouseMove` emits for the flags `f`. */
  function MoveOutputs(f: Edges, s: Snapshot, p: Pointer): (outs: seq<Output>)
    ensures outs == [] <==> !f.Any()
    ensures forall i :: 0 <= i < |outs| ==> SizeNonNegative(outs[i])
  {
    EmitIf(f.top, Top, s, p) + EmitIf(f.right, Right, s, p) +
    EmitIf(f.bottom, Bottom, s, p) + EmitIf(f.left, Left, s, p)
  }

  /** `onMouseMove` emits one value per active edge, in the order top, right, bottom, left. */
  lemma MoveOutputsPerSide(f: Edges, s: Snapshot, p: Pointer)
    ensures var outs, sides := MoveOutputs(f, s, p), ActiveSides(f);
      |outs| == |sides| && forall i :: 0 <= i < |outs| ==> outs[i] == OutputFor(sides[i], s, p)
  {
  }

  function WithTopHeight(st: ElementStyle, r: Resized): ElementStyle {
    st.(top := if r.offset.Some? then r.offset else st.top, height := Some(r.size))
  }

  function WithLeftWidth(st: ElementStyle, r: Resized): ElementStyle {
    st.(left := if r.offset.Some? then r.offset else st.left, width := Some(r.size))
  }

  /** The style writes of the resize function for one edge. */
  function WriteSide(side: Side, s: Snapshot, st: ElementStyle, p: Pointer): ElementStyle {
    match side
    case Top => WithTopHeight(st, TopResize(s, p))
    case Right => st.(width := Some(RightResize(s, p)))
    case Bottom => st.(height := Some(BottomResize(s, p)))
    case Left => WithLeftWidth(st, LeftResize(s, p))
  }

  function WriteIf(on: bool, side: Side, s: Snapshot, st: ElementStyle, p: Pointer): ElementStyle {
    if on then WriteSide(side, s, st, p) else st
  }

  /** The styles after the resize writes of `onMouseMove`, in its order. */
  function MoveStyle(f: Edges, s: Snapshot, st: ElementStyle, p: Pointer): (st': ElementStyle)
    ensures st'.cursor == st.cursor && st'.translucent == st.translucent
    ensures !f.Any() ==> st' == st
  {
    WriteIf(f.left, Left, s, WriteIf(f.bottom, Bottom, s, WriteIf(f.right, Right, s, WriteIf(f.top, Top, s, st, p), p), p), p)
  }

  // ---------------------------------------------------------------------------------------
  // Whole gestures: a mouse-down from the all-clear state followed by a mouse-move

  /** A gesture whose pointer has not moved writes and emits the start geometry. */
  lemma ZeroMotionKeepsRect(cfg: Config, rect: Rect, p: Pointer, s0: Snapshot, st: ElementStyle)
    requires rect.width >= 0 && rect.height >= 0
    ensures var m := ModeFor(Zones(cfg, rect, p));
      var s := Latch(s0, m, rect, p);
      var st' := MoveStyle(m, s, st, p);
      && (m.top ==> st'.top == Some(rect.top))
      && (m.left ==> st'.left == Some(rect.left))
      && (m.Vertical() ==> st'.height == Some(rect.height))
      && (m.Horizontal() ==> st'.width == Some(rect.width))
      && (!m.Any() ==> st' == st)
      && forall o :: o in MoveOutputs(m, s, p) ==> o == Height(rect.height) || o == Width(rect.width)
  {
  }

  /** During a gesture the edges opposite to the dragged ones stay where they were. */
  lemma OppositeEdgesStayFixed(cfg: Config, rect: Rect, p0: Pointer, s0: Snapshot, st: ElementStyle, p: Pointer)
    ensures var m := ModeFor(Zones(cfg, rect, p0));
      var st' := MoveStyle(m, Latch(s0, m, rect, p0), st, p);
      var dx, dy := p.clientX - p0.clientX, p.clientY - p0.clientY;
      && (m.top && dy <= rect.height ==>
            st'.top == Some(rect.top + dy) && st'.height == Some(rect.height - dy) &&
            st'.top.value + st'.height.value == rect.Bottom())
      && (m.top && dy > rect.height ==> st'.top == st.top && st'.height == Some(0))
      && (m.left && dx <= rect.width ==>
            st'.left == Some(rect.left + dx) && st'.width == Some(rect.width - dx) &&
            st'.left.value + st'.width.value == rect.Right())
      && (m.left && dx > rect.width ==> st'.left == st.left && st'.width == Some(0))
      && (!m.top ==> st'.top == st.top)
      && (!m.left ==> st'.left == st.left)
  {
  }

  lemma AppendFour<T>(a: seq<T>, b: seq<T>, c: seq<T>, d: seq<T>, e: seq<T>)
    ensures a + b + c + d + e == a + (b + c + d + e)
  {
  }

  // ---------------------------------------------------------------------------------------
  // The directive

  class ResizableDirective {
    // inputs
    var resizableOnLeft: bool
    var resizableOnRight: bool
    var resizableOnTop: bool
    var resizableOnBottom: bool

    // resize flags
    var topIsResizable: bool
    var rightIsResizable: bool
    var bottomIsResizable: bool
    var leftIsResizable: bool

    // start snapshot
    var mouseXOnStart: int
    var mouseYOnStart: int
    var elemTopOnStart: int
    var elemWidthOnStart: int
    var elemHeightOnStart: int
    var elemLeftOnStart: int

    // effects on the host: renderer writes, the overlay child, output emissions
    var style: ElementStyle
    var overlayEnabled: bool
    var emitted: seq<Output>

    function Cfg(): Config
      reads this`resizableOnTop, this`resizableOnRight, this`resizableOnBottom, this`resizableOnLeft
    {
      Config(resizableOnTop, resizableOnRight, resizableOnBottom, resizableOnLeft, BoundarySize)
    }

    function Flags(): Edges
      reads this`topIsResizable, this`rightIsResizable, this`bottomIsResizable, this`leftIsResizable
    {
      Edges(topIsResizable, rightIsResizable, bottomIsResizable, leftIsResizable)
    }

    function Start(): Snapshot
      reads this`mouseXOnStart, this`mouseYOnStart, this`elemTopOnStart
      reads this`elemWidthOnStart, this`elemHeightOnStart, this`elemLeftOnStart
    {
      Snapshot(mouseXOnStart, mouseYOnStart, elemTopOnStart, elemWidthOnStart, elemHeightOnStart, elemLeftOnStart)
    }

    /** A fresh directive: every edge enabled, no flag set, nothing written or emitted.
        The snapshot fields, undefined in the source until first written, start at 0. */
    constructor ()
      ensures Cfg() == Config(true, true, true, true, BoundarySize)
      ensures Flags() == NoEdges && Start() == Snapshot(0, 0, 0, 0, 0, 0)
      ensures style == NoStyle && !overlayEnabled && emitted == []
    {
      resizableOnLeft, resizableOnRight, resizableOnTop, resizableOnBottom := true, true, true, true;
      topIsResizable, rightIsResizable, bottomIsResizable, leftIsResizable := false, false, false, false;
      mouseXOnStart, mouseYOnStart, elemTopOnStart := 0, 0, 0;
      elemWidthOnStart, elemHeightOnStart, elemLeftOnStart := 0, 0, 0;
      style, overlayEnabled, emitted := NoStyle, false, [];
    }

    /** `ngOnInit` emits the element's laid-out width and height. */
    method NgOnInit(rect: Rect)
      modifies this`emitted
      ensures emitted == old(emitted) + [Width(rect.width), Height(rect.height)]
    {
      emitted := emitted + [Width(rect.width)];
      emitted := emitted + [Height(rect.height)];
    }

    method OnMouseMove(p: Pointer, rect: Rect)
      modifies this`style, this`emitted
      ensures style == MoveStyle(Flags(), Start(), old(style).(cursor := CursorFor(Zones(Cfg(), rect, p))), p)
      ensures emitted == old(emitted) + MoveOutputs(Flags(), Start(), p)
    {
      ghost var f, s := Flags(), Start();
      SetResizeCursors(p, rect);
      ghost var st0, out0 := style, emitted;
      if topIsResizable {
        var currentHeight := ResizeTop(p);
        emitted := emitted + [Height(currentHeight)];
      }
      ghost var st1, out1 := WriteIf(f.top, Top, s, st0, p), out0 + EmitIf(f.top, Top, s, p);
      assert style == st1 && emitted == out1;
      if rightIsResizable {
        var currentWidth := ResizeRight(p);
        emitted := emitted + [Width(currentWidth)];
      }
      ghost var st2, out2 := WriteIf(f.right, Right, s, st1, p), out1 + EmitIf(f.right, Right, s, p);
      assert style == st2 && emitted == out2;
      if bottomIsResizable {
        var currentHeight := ResizeBottom(p);
        emitted := emitted + [Height(currentHeight)];
      }
      ghost var st3, out3 := WriteIf(f.bottom, Bottom, s, st2, p), out2 + EmitIf(f.bottom, Bottom, s, p);
      assert style == st3 && emitted == out3;
      if leftIsResizable {
        var currentWidth := ResizeLeft(p);
        emitted := emitted + [Width(currentWidth)];
      }
      assert style == WriteIf(f.left, Left, s, st3, p) && emitted == out3 + EmitIf(f.left, Left, s, p);
      AppendFour(out0, EmitIf(f.top, Top, s, p), EmitIf(f.right, Right, s, p),
                 EmitIf(f.bottom, Bottom, s, p), EmitIf(f.left, Left, s, p));
    }

    method OnMouseDown(p: Pointer, rect: Rect)
      modifies this`topIsResizable, this`rightIsResizable, this`bottomIsResizable, this`leftIsResizable
      modifies this`mouseXOnStart, this`mouseYOnStart, this`elemTopOnStart
      modifies this`elemWidthOnStart, this`elemHeightOnStart, this`elemLeftOnStart
      modifies this`style, this`overlayEnabled, this`emitted
      ensures var m := ModeFor(Zones(Cfg(), rect, p));
        Flags() == old(Flags()).Union(m) && Start() == Latch(old(Start()), m, rect, p)
      ensures InsideBoundary(Zones(Cfg(), rect, p)) ==>
        style == old(style).(translucent := true) && overlayEnabled && emitted == old(emitted) + [Resizing(true)]
      ensures !InsideBoundary(Zones(Cfg(), rect, p)) ==>
        style == old(style) && overlayEnabled == old(overlayEnabled) && emitted == old(emitted)
    {
      SetResizeMode(p, rect);
      if InsideBoundary(Zones(Cfg(), rect, p)) {
        style := style.(translucent := true);
        overlayEnabled := true;
        emitted := emitted + [Resizing(true)];
      }
    }

    /** Clears every flag and leaves the resizing state, whether or not a gesture was active. */
    method OnMouseUp()
      modifies this`topIsResizable, this`rightIsResizable, this`bottomIsResizable, this`leftIsResizable
      modifies this`style, this`overlayEnabled, this`emitted
      ensures Flags() == NoEdges
      ensures style == old(style).(translucent := false) && !overlayEnabled
      ensures emitted == old(emitted) + [Resizing(false)]
    {
      style := style.(translucent := false);
      overlayEnabled := false;
      topIsResizable, rightIsResizable, bottomIsResizable, leftIsResizable := false, false, false, false;
      emitted := emitted + [Resizing(false)];
    }

    method SetResizeMode(p: Pointer, rect: Rect)
      modifies this`topIsResizable, this`rightIsResizable, this`bottomIsResizable, this`leftIsResizable
      modifies this`mouseXOnStart, this`mouseYOnStart, this`elemTopOnStart
      modifies this`elemWidthOnStart, this`elemHeightOnStart, this`elemLeftOnStart
      ensures var m := ModeFor(Zones(Cfg(), rect, p));
        Flags() == old(Flags()).Union(m) && Start() == Latch(old(Start()), m, rect, p)
    {
      var z := Zones(Cfg(), rect, p);
      if InsideTopRight(z) {
        MakeTopResizable(p, rect);
        MakeRightResizable(p, rect);
      } else if InsideBottomRight(z) {
        MakeBottomResizable(p, rect);
        MakeRightResizable(p, rect);
      } else if InsideBottomLeft(z) {
        MakeBottomResizable(p, rect);
        MakeLeftResizable(p, rect);
      } else if InsideTopLeft(z) {
        MakeTopResizable(p, rect);
        MakeLeftResizable(p, rect);
      } else if z.top {
        MakeTopResizable(p, rect);
      } else if z.right {
        MakeRightResizable(p, rect);
      } else if z.bottom {
        MakeBottomResizable(p, rect);
      } else if z.left {
        MakeLeftResizable(p, rect);
      }
    }

    method MakeTopResizable(p: Pointer, rect: Rect)
      modifies this`topIsResizable, this`mouseYOnStart, this`elemTopOnStart, this`elemHeightOnStart
      ensures topIsResizable && mouseYOnStart == p.clientY
      ensures elemTopOnStart == rect.top && elemHeightOnStart == rect.height
    {
      topIsResizable := true;
      mouseYOnStart := p.clientY;
      elemTopOnStart := rect.top;
      elemHeightOnStart := rect.height;
    }

    method MakeRightResizable(p: Pointer, rect: Rect)
      modifies this`rightIsResizable, this`mouseXOnStart, this`elemWidthOnStart
      ensures rightIsResizable && mouseXOnStart == p.clientX && elemWidthOnStart == rect.width
    {
      rightIsResizable := true;
      mouseXOnStart := p.clientX;
      elemWidthOnStart := rect.width;
    }

    method MakeBottomResizable(p: Pointer, rect: Rect)
      modifies this`bottomIsResizable, this`mouseYOnStart, this`elemHeightOnStart
      ensures bottomIsResizable && mouseYOnStart == p.clientY && elemHeightOnStart == rect.height
    {
      bottomIsResizable := true;
      mouseYOnStart := p.clientY;
      elemHeightOnStart := rect.height;
    }

    method MakeLeftResizable(p: Pointer, rect: Rect)
      modifies this`leftIsResizable, this`mouseXOnStart, this`elemLeftOnStart, this`elemWidthOnStart
      ensures leftIsResizable && mouseXOnStart == p.clientX
      ensures elemLeftOnStart == rect.left && elemWidthOnStart == rect.width
    {
      leftIsResizable := true;
      mouseXOnStart := p.clientX;
      elemLeftOnStart := rect.left;
      elemWidthOnStart := rect.width;
    }

    method ResizeTop(p: Pointer) returns (currentHeight: int)
      modifies this`style
      ensures currentHeight == TopResize(Start(), p).size
      ensures style == WithTopHeight(old(style), TopResize(Start(), p))
    {
      var currentTop := elemTopOnStart + (p.clientY - mouseYOnStart);
      var tempHeight := elemHeightOnStart - (p.clientY - mouseYOnStart);
      currentHeight := if tempHeight > 0 then tempHeight else 0;
      if tempHeight >= 0 {
        style := style.(top := Some(currentTop));
      }
      style := style.(height := Some(currentHeight));
    }

    method ResizeRight(p: Pointer) returns (currentWidth: int)
      modifies this`style
      ensures currentWidth == RightResize(Start(), p)
      ensures style == old(style).(width := Some(currentWidth))
    {
      var tempWidth := elemWidthOnStart + (p.clientX - mouseXOnStart);
      currentWidth := if tempWidth > 0 then tempWidth else 0;
      style := style.(width := Some(currentWidth));
    }

    method ResizeBottom(p: Pointer) returns (currentHeight: int)
      modifies this`style
      ensures currentHeight == BottomResize(Start(), p)
      ensures style == old(style).(height := Some(currentHeight))
    {
      var tempHeight := elemHeightOnStart + (p.clientY - mouseYOnStart);
      currentHeight := if tempHeight > 0 then tempHeight else 0;
      style := style.(height := Some(currentHeight));
    }

    method ResizeLeft(p: Pointer) returns (currentWidth: int)
      modifies this`style
      ensures currentWidth == LeftResize(Start(), p).size
      ensures style == WithLeftWidth(old(style), LeftResize(Start(), p))
    {
      var currentLeft := elemLeftOnStart + (p.clientX - mouseXOnStart);
      var tempWidth := elemWidthOnStart - (p.clientX - mouseXOnStart);
      currentWidth := if tempWidth > 0 then tempWidth else 0;
      if tempWidth >= 0 {
        style := style.(left := Some(currentLeft));
      }
      style := style.(width := Some(currentWidth));
    }

    method SetResizeCursors(p: Pointer, rect: Rect)
      modifies this`style
      ensures style == old(style).(cursor := CursorFor(Zones(Cfg(), rect, p)))
    {
      var z := Zones(Cfg(), rect, p);
      if InsideTopRight(z) {
        style := style.(cursor := Some(NeswResize));
      } else if InsideBottomRight(z) {
        style := style.(cursor := Some(NwseResize));
      } else if InsideBottomLeft(z) {
        style := style.(cursor := Some(NeswResize));
      } else if InsideTopLeft(z) {
        style := style.(cursor := Some(NwseResize));
      } else if InsideTopOrBottom(z) {
        style := style.(cursor := Some(RowResize));
      } else if InsideLeftOrRight(z) {
        style := style.(cursor := Some(ColResize));
      } else {
        style := style.(cursor := None);
      }
    }
  }

  // ---------------------------------------------------------------------------------------
  // Clients: what a host can conclude from the handlers' contracts alone

  /** A left-edge resize of the rectangle {top 100, left 100, width 200, height 100}. */
  method LeftEdgeGesture()
  {
    var d := new ResizableDirective();
    var rect := Rect(100, 100, 200, 100);
    d.OnMouseDown(Pointer(100, 150), rect);
    assert d.Flags() == Edges(false, false, false, true);
    assert d.emitted == [Resizing(true)] && d.style.translucent;
    d.OnMouseMove(Pointer(130, 150), rect);
    assert d.style.left == Some(130) && d.style.width == Some(170);
    // the cursor is classified against the rectangle at the time of the event, where (130, 150)
    // is no longer in the left zone, so the cursor style is removed mid-gesture
    assert d.style.cursor == None;
    assert d.emitted == [Resizing(true), Width(170)];
    d.OnMouseUp();
    assert d.Flags() == NoEdges && !d.style.translucent;
    assert d.emitted == [Resizing(true), Width(170), Resizing(false)];
  }

  /** A mouse-up with no gesture still emits `resizing(false)`; a move afterwards emits nothing. */
  method ReleaseWithoutPress()
  {
    var d := new ResizableDirective();
    d.OnMouseUp();
    assert d.emitted == [Resizing(false)];
    d.OnMouseMove(Pointer(150, 150), Rect(100, 100, 200, 100));
    assert d.emitted == [Resizing(false)] && d.style.cursor == None;
  }

  /** Two presses without a release accumulate flags: first at the top edge, then at the bottom. */
  method TwoPressesWithoutRelease()
  {
    var d := new ResizableDirective();
    var rect := Rect(100, 100, 200, 100);
    d.OnMouseDown(Pointer(200, 102), rect);
    assert d.Flags() == Edges(true, false, false, false);
    d.OnMouseDown(Pointer(200, 198), rect);
    assert d.Flags() == Edges(true, false, true, false);
  }
}
