/** Configuration and geometry values shared by the sizing function, the
    render policy and the layout controller of the two-pane splitter layout. */
module Config {

  datatype Option<+T> = None | Some(value: T)

  /** A bounding box as reported by the host at the moment of measurement. */
  datatype Rect = Rect(top: real, left: real, width: real, height: real)

  /** A pointer position in the same coordinate space as `Rect`. */
  datatype Position = Position(left: real, top: real)

  /** The props of a layout instance that the core reads.
      `primaryIndex` is kept as the raw value the host passes in; only 1 selects
      the second pane, every other value behaves as 0.
      `customClassName` and the child elements themselves are not part of the model. */
  datatype Props = Props(
    vertical: bool,
    percentage: bool,
    primaryIndex: int,
    primaryMinSize: real,
    secondaryMinSize: real,
    secondaryInitialSize: Option<real>)

  /** The props a layout gets when the host passes none. */
  function DefaultProps(): Props {
    Props(false, false, 0, 0.0, 0.0, None)
  }

  /** Extent of a rect along the active axis: height when vertical, width otherwise. */
  function Extent(vertical: bool, r: Rect): real {
    if vertical then r.height else r.width
  }

  /** Near edge of a rect along the active axis: top when vertical, left otherwise. */
  function Origin(vertical: bool, r: Rect): real {
    if vertical then r.top else r.left
  }

  /** Pointer coordinate along the active axis. */
  function Coord(vertical: bool, p: Position): real {
    if vertical then p.top else p.left
  }
}
