/** Values shared by the two pointer-gesture directives: the element's geometry as the
    browser reports it, the pointer position of a mouse event, and the cursor styles. */
module Common {

  datatype Option<T> = None | Some(value: T)

  /** A snapshot of the host element's bounding rectangle, in pixels. The browser reports
      `getBoundingClientRect()` and `offsetWidth`/`offsetHeight` separately; here they are
      one value, with `right` and `bottom` derived from the other four. */
  datatype Rect = Rect(top: int, left: int, width: int, height: int) {
    function Right(): int { left + width }
    function Bottom(): int { top + height }
  }

  /** The `clientX`/`clientY` of a mouse event, in the coordinate space of `Rect`. */
  datatype Pointer = Pointer(clientX: int, clientY: int)

  /** The values the directives write into the element's `cursor` style. */
  datatype Cursor = NeswResize | NwseResize | RowResize | ColResize
}
