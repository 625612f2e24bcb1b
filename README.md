# ng-resizer: a Dafny model of the resize and splitter directives

This project models the two pointer-gesture directives of the ng-resizer Angular application
and proves properties of them.

- `ResizableDirective` (`appResizable`) lets the user resize an element by dragging one of
  its edges or corners. On mouse-down it classifies the pointer against the four edge zones.
  The zone of an enabled edge is the half-plane beyond the line `boundarySize` = 8 px inside
  that edge; over the element itself it is the 8 px band along the edge. A pointer outside the
  element (which the full-screen overlay lets through) can therefore be in a zone. It latches
  the edge flags of the chosen mode (from the all-clear state, at most two) together with a
  start snapshot of the pointer and the element. When the pointer is in some zone, it also
  makes the element translucent, adds a full-screen overlay and emits `resizing(true)`. On
  every mouse-move it sets the cursor hint from the zones at the pointer. For each latched
  edge it writes the new size and emits the size. For the top and left edges it also writes
  the new position, but only while the raw height or width is ≥ 0. On mouse-up it clears
  every flag and emits `resizing(false)`.
- `BorderDirective` (`appBorder`) is a splitter. While the button is down, the element
  follows the pointer along one axis: `top := checkBorder(clientY)` for a horizontal border
  and `left := checkBorder(clientX)` for a vertical one. `checkBorder` clamps on one side of a
  configured `boundary`. On release the directive emits the element's top or left.

Files:

- `common.dfy`, module `Common`: the rectangle snapshot (`Rect`; `Right()` is left + width and
  `Bottom()` is top + height), the pointer position and the cursor values.
- `resizable.dfy`, module `Resizable`:
  - pure functions for zone classification (`Zones`), mode selection (`ModeFor`,
    plus the reference first-match search `FirstMatch` over `Priority`), the cursor hint
    (`CursorFor`, `ModeCursor`), the start snapshot (`Latch`) and the four resize formulas;
  - the gesture lemmas;
  - the class `ResizableDirective`, with the source's fields and handlers.
- `border.dfy`, module `Border`: `CheckBorder`, `DirectionOf`, `MoveWrite` and the class
  `BorderDirective`.

How the browser and the framework are modelled:

- The DOM reads (`getBoundingClientRect()`, `offsetWidth`, `offsetHeight`) become one
  `Rect` parameter per event.
- The renderer's `setStyle`/`removeStyle` calls update a style record (`style`). `None`
  means a style that was never written or was removed. The opacity style is the boolean
  `translucent`.
- Appending and removing the overlay is the boolean `overlayEnabled`.
- Every `EventEmitter` emission is appended to the log `emitted`.
- Pixel values are `int`: the source only adds, subtracts and compares them.

Behaviour of the code that the model keeps:

- `setResizeMode` never clears a flag. Two mouse-downs without a mouse-up therefore
  accumulate flags: top and then bottom gives both (the client method
  `TwoPressesWithoutRelease`). From the all-clear state, one mouse-down sets at most one
  vertical and one horizontal edge.
- The source declares the outputs `top` and `left` but never emits them. The output log
  therefore only holds `Width`, `Height` and `Resizing` values.
- The cursor is classified against the rectangle at the time of the move. It can therefore
  vanish while a resize is still in progress (see `LeftEdgeGesture`).
- The snapshot fields are undefined until written. They start at 0 here. Each resize formula
  reads only the fields written together with its own flag.
- An unset `boundary` makes both comparisons in `checkBorder` false, so the position passes
  through unclamped. `appBorder` is `Option<string>` so that "unset" can be stated.
- The border's `direction` is fixed once, in `ngOnInit` (modelled in the constructor).
  `checkBorder` reads the current `appBorder` on every call.
- The code has no drag mode, no outer-boundary clamping and no "move" cursor.
- A mouse-up with no active gesture is not a no-op. It still removes the opacity style,
  asks the renderer to remove the overlay and emits `resizing(false)`. The model takes that
  removal of an unattached overlay to be harmless (see "## Left out").
- `ResizableDirective` emits no final top/left at mouse-up.

## Model

| member | source | states |
|---|---|---|
| `Resizable.Zones` | src/app/resizable.directive.ts:217-259 | Built from `InsideTop`, `InsideRight`, `InsideBottom` and `InsideLeft` (the four edge comparisons); `InsideTopOrBottom`, `InsideLeftOrRight`, `InsideBoundary` and the corner predicates `InsideTopRight`, `InsideBottomRight`, `InsideBottomLeft`, `InsideTopLeft` are the disjunctions and conjunctions of its result. Each zone is false when its edge is disabled. Otherwise the pointer is less than `boundarySize` px inside from that edge. Opposite zones are disjoint once the element is at least two bands tall or wide. The interior, shrunk by one band per side, is in no zone. |
| `Resizable.ModeFor` | src/app/resizable.directive.ts:113-135 | The mode latched by the if/else chain only uses edges whose zone holds. It has at most one of top/bottom and at most one of left/right. It is non-empty exactly when `isInsideBoundary` holds. It is a corner whenever some vertical and some horizontal zone both hold. |
| `Resizable.FirstMatch` | src/app/resizable.directive.ts:113-135 | Returns the index of the first candidate all of whose edges are zones, or the length when none is; every earlier candidate is not covered. |
| `Resizable.ModeIsFirstMatch` | src/app/resizable.directive.ts:113-135 | The chain equals the first match in the priority order TR, BR, BL, TL, T, R, B, L (none: no edge). |
| `Resizable.CursorFor` | src/app/resizable.directive.ts:199-215 | The cursor hint is the cursor of the mode a mouse-down at the same place would latch. A NE/SW corner gives `nesw-resize` and a NW/SE corner `nwse-resize`. A single top or bottom edge gives `row-resize`, a single left or right edge `col-resize`. Otherwise the style is removed. |
| `Resizable.Latch` | src/app/resizable.directive.ts:137-161 | An empty mode leaves the snapshot unchanged. |
| `Resizable.TopResize` | src/app/resizable.directive.ts:163-172 | Height ≥ 0. While the raw height is ≥ 0, the top moves by the pointer delta and top + height = start top + start height (the bottom edge is fixed). Otherwise top is not written and height is 0. Zero delta gives back the start top and height. |
| `Resizable.RightResize` | src/app/resizable.directive.ts:174-179 | Width ≥ 0. It is start width + delta while that is ≥ 0, else 0. Zero delta gives back the start width. |
| `Resizable.BottomResize` | src/app/resizable.directive.ts:181-186 | Height ≥ 0. It is start height + delta while that is ≥ 0, else 0. Zero delta gives back the start height. |
| `Resizable.LeftResize` | src/app/resizable.directive.ts:188-197 | Width ≥ 0. While the raw width is ≥ 0, the left moves by the pointer delta and left + width = start left + start width (the right edge is fixed). Otherwise left is not written and width is 0. Zero delta gives back the start left and width. |
| `Resizable.ActiveSides` | src/app/resizable.directive.ts:48-63 | A side is listed exactly when its flag is set, and the sides are listed strictly in the order top, right, bottom, left. |
| `Resizable.MoveOutputs` | src/app/resizable.directive.ts:45-64 | A mouse-move emits nothing exactly when no flag is set. Every emitted width or height is ≥ 0. |
| `Resizable.MoveOutputsPerSide` | src/app/resizable.directive.ts:45-64 | One value per active edge, in the order top, right, bottom, left: a height for top/bottom and a width for right/left. |
| `Resizable.MoveStyle` | src/app/resizable.directive.ts:45-64 | The resize writes never touch the cursor or the opacity. With no flag set they write nothing. |
| `Resizable.ZeroMotionKeepsRect` | src/app/resizable.directive.ts:113-197 | A mouse-down from the all-clear state followed by a move to the same point writes back the start top, left, width and height of the latched edges. It emits only those start sizes. It writes nothing when no edge was latched. |
| `Resizable.OppositeEdgesStayFixed` | src/app/resizable.directive.ts:113-197 | After a latch from the all-clear state, a top resize keeps the bottom edge at the start bottom while the height stays ≥ 0; beyond that the top is kept and the height is 0. The same holds for left/right. Top and left are written only by top and left resizes. |
| `Resizable.ResizableDirective.constructor` | src/app/resizable.directive.ts:6-35 | All edges enabled; no flag set; nothing written, emitted or overlaid. |
| `Resizable.ResizableDirective.NgOnInit` | src/app/resizable.directive.ts:40-41 | Emits the laid-out width, then the height. |
| `Resizable.ResizableDirective.OnMouseMove` | src/app/resizable.directive.ts:45-64 | Writes the cursor for the current zones, then the resize writes of the latched flags. Appends `MoveOutputs`. Changes no flag and no snapshot field. |
| `Resizable.ResizableDirective.OnMouseDown` | src/app/resizable.directive.ts:66-74 | The flags become old flags ∪ `ModeFor`, and the snapshot is `Latch`ed. Exactly when the pointer is in some zone, the element becomes translucent, the overlay is enabled and `resizing(true)` is emitted; otherwise nothing else changes. |
| `Resizable.ResizableDirective.OnMouseUp` | src/app/resizable.directive.ts:76-82 | With no precondition, clears all four flags, removes the opacity and the overlay, and emits `resizing(false)`. |
| `Resizable.ResizableDirective.SetResizeMode` | src/app/resizable.directive.ts:113-135 | Sets the flags of `ModeFor` without clearing any, and updates exactly the snapshot fields of `Latch`. |
| `Resizable.ResizableDirective.MakeTopResizable` | src/app/resizable.directive.ts:137-142 | Sets the top flag and snapshots pointer y, element top and height. |
| `Resizable.ResizableDirective.MakeRightResizable` | src/app/resizable.directive.ts:144-148 | Sets the right flag and snapshots pointer x and element width. |
| `Resizable.ResizableDirective.MakeBottomResizable` | src/app/resizable.directive.ts:150-154 | Sets the bottom flag and snapshots pointer y and element height. |
| `Resizable.ResizableDirective.MakeLeftResizable` | src/app/resizable.directive.ts:156-161 | Sets the left flag and snapshots pointer x, element left and width. |
| `Resizable.ResizableDirective.ResizeTop` | src/app/resizable.directive.ts:163-172 | Returns the height of `TopResize`. Writes its top (when present) and its height. |
| `Resizable.ResizableDirective.ResizeRight` | src/app/resizable.directive.ts:174-179 | Returns and writes the width of `RightResize`. |
| `Resizable.ResizableDirective.ResizeBottom` | src/app/resizable.directive.ts:181-186 | Returns and writes the height of `BottomResize`. |
| `Resizable.ResizableDirective.ResizeLeft` | src/app/resizable.directive.ts:188-197 | Returns the width of `LeftResize`. Writes its left (when present) and its width. |
| `Resizable.ResizableDirective.SetResizeCursors` | src/app/resizable.directive.ts:199-215 | Writes `CursorFor` of the current zones into the cursor style and nothing else. |
| `Border.CheckBorder` | src/app/border.directive.ts:78-84 | `ClampsBelow` is the condition of line 79. For `left`/`top`: the result is ≤ boundary, equals pos when pos < boundary and equals the boundary otherwise. For any other value: the result is ≥ boundary, equals pos when pos > boundary and equals the boundary otherwise. An unset boundary returns pos. |
| `Border.CheckBorderIdempotent` | src/app/border.directive.ts:78-84 | Applying `checkBorder` twice gives the same result as applying it once. |
| `Border.MoveWrite` | src/app/border.directive.ts:38-40 | A horizontal border writes `top`, a vertical one `left`. With no boundary the value is the pointer's y or x respectively. With a boundary, a `left` or `top` border writes a value at or before it and every other border a value at or after it. |
| `Border.NamedBorders` | src/app/border.directive.ts:78-88 | With the direction fixed from the same `appBorder`: `left` moves along x and stays ≤ boundary; `right` moves along x and stays ≥ boundary; `top` moves along y and stays ≤ boundary; `bottom` moves along y and stays ≥ boundary. Each follows the pointer on its free side. |
| `Border.BorderDirective.constructor` | src/app/border.directive.ts:16-23 | Binds the inputs and fixes `direction` from `appBorder`. The button starts up and nothing is written or emitted. |
| `Border.DirectionOf` | src/app/border.directive.ts:86-88 | The direction is vertical exactly for `left`/`right`; every other value, unset included, gives horizontal. |
| `Border.BorderDirective.SetDirection` | src/app/border.directive.ts:86-88 | Assigns `DirectionOf(appBorder)`: `direction` is vertical exactly for `left`/`right`. Every other value, unset included, gives horizontal. |
| `Border.BorderDirective.OnMouseEnter` | src/app/border.directive.ts:25-29 | The cursor becomes `row-resize` for a horizontal border and `col-resize` for a vertical one. |
| `Border.BorderDirective.OnMouseLeave` | src/app/border.directive.ts:31-34 | Removes the cursor style. |
| `Border.BorderDirective.OnMouseMove` | src/app/border.directive.ts:36-43 | While the button is up nothing changes. While it is down, exactly the `MoveWrite` style is written. |
| `Border.BorderDirective.OnMouseDown` | src/app/border.directive.ts:45-49 | Whatever the prior state, the button is down and the overlay enabled. |
| `Border.BorderDirective.OnMouseUp` | src/app/border.directive.ts:51-56 | Whatever the prior state, the button is up and the overlay removed. Emits the element's current top (horizontal) or left (vertical). |

## Left out

- Overlay creation, append and removal (src/app/resizable.directive.ts:92-111, src/app/border.directive.ts:57-76): DOM node manipulation, modelled only as the boolean `overlayEnabled`.
- The opacity value 0.5 (src/app/resizable.directive.ts:84-90): modelled as the boolean `translucent`.
- The `'50px'`/`'30%'` style strings of `ngOnInit` (src/app/resizable.directive.ts:38-39): their effect is a layout result, taken as the `Rect` passed to `NgOnInit`.
- `offsetWidth`/`offsetHeight` versus `getBoundingClientRect()`: the browser can report these differently (borders, transforms). The model reads both from one `Rect`.
- The `'px'` string concatenation and floating-point `number` semantics (NaN, rounding): pixel values are unbounded integers.
- Angular plumbing (`@Input`, `@Output`, `EventEmitter`, `HostListener`, `Renderer2`, `ElementRef`): replaced by fields, method parameters, the style record and the output log.
- src/app/app.component.ts (one-line setters), src/app/app.module.ts (module wiring) and src/app/resizable.directive.spec.ts (a constructor smoke test): no logic to model.
- A mouse-up with no overlay attached (src/app/resizable.directive.ts:79, src/app/border.directive.ts:54): the renderer is asked to remove a child that was never appended. If the renderer passes this to the DOM's `removeChild`, it throws, and the handler stops before clearing the flags and emitting. The model takes such a removal to be a no-op and does not model that exception path; `OnMouseUp` of both directives therefore always completes.
- Events delivered before `ngOnInit` (an undefined `direction`): the border's constructor includes `ngOnInit`.
- `Resizable.MoveStyle`: its own contract only says what the resize writes leave alone; what they write is stated by the four resize functions and the two gesture lemmas.
