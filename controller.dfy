/** The layout controller: the mounted component's state (`resizing`, the
    stored secondary pane size, and whether the splitter element exists) and
    the transitions the tests drive, mounting and a mouse-down on the splitter.
    Bounding boxes are measurements made by the host and arrive as parameters. */
module Controller {
  import opened Config
  import Sizing
  import Render

  /** Secondary pane size at mount: the configured initial size when there is
      one, whether or not a splitter is rendered; otherwise the size for a
      pointer at the centre of the room the splitter leaves, which splits it
      evenly whenever the minimums allow. */
  function InitialSecondarySize(props: Props, container: Rect, splitter: Rect): (r: real)
    requires props.secondaryInitialSize.None? ==> Sizing.Measurable(props, container)
    ensures props.secondaryInitialSize.Some? ==> r == props.secondaryInitialSize.value
    ensures props.secondaryInitialSize.None? && Sizing.SplitterFits(props, container, splitter)
         && props.primaryMinSize <= Sizing.InUnit(props, container, Sizing.HalfRoom(props, container, splitter))
         && props.secondaryMinSize <= Sizing.InUnit(props, container, Sizing.HalfRoom(props, container, splitter))
         ==> r == Sizing.InUnit(props, container, Sizing.HalfRoom(props, container, splitter))
  {
    match props.secondaryInitialSize
    case Some(size) => size
    case None =>
      var half := Sizing.InUnit(props, container, Sizing.HalfRoom(props, container, splitter));
      var centre := Sizing.CentrePosition(container, splitter);
      assert Sizing.SplitterFits(props, container, splitter)
          && props.primaryMinSize <= half && props.secondaryMinSize <= half
          ==> Sizing.GetSecondaryPaneSize(props, container, splitter, centre, false) == half by {
        if Sizing.SplitterFits(props, container, splitter)
           && props.primaryMinSize <= half && props.secondaryMinSize <= half {
          Sizing.EvenSplit(props, container, splitter);
        }
      }
      Sizing.GetSecondaryPaneSize(props, container, splitter, centre, false)
  }

  class SplitterLayout {
    const props: Props
    const childCount: nat
    var resizing: bool
    var secondaryPaneSize: real
    /** Whether the splitter element exists (the component's `splitter` reference). */
    var splitterMounted: bool

    /** The splitter reference exists exactly when the render output holds a splitter. */
    ghost predicate Valid()
      reads this
    {
      splitterMounted == (Output()[1] == Render.Splitter)
    }

    /** What the component currently renders. */
    function Output(): seq<Render.Slot>
      reads this
    {
      Render.Slots(childCount, props, secondaryPaneSize)
    }

    /** Mounting: not resizing, the splitter reference set only when two or
        more children are rendered, and the secondary size seeded at once. */
    constructor (props: Props, childCount: nat, container: Rect, splitter: Rect)
      requires props.secondaryInitialSize.None? ==> Sizing.Measurable(props, container)
      ensures Valid()
      ensures this.props == props && this.childCount == childCount
      ensures !resizing
      ensures splitterMounted <==> childCount >= 2
      ensures secondaryPaneSize == InitialSecondarySize(props, container, splitter)
    {
      this.props := props;
      this.childCount := childCount;
      resizing := false;
      splitterMounted := childCount >= 2;
      secondaryPaneSize := InitialSecondarySize(props, container, splitter);
    }

    /** A mouse-down on the splitter starts a resize; the size is untouched. */
    method MouseDown()
      requires Valid() && splitterMounted
      modifies this`resizing
      ensures Valid() && resizing
      ensures secondaryPaneSize == old(secondaryPaneSize)
    {
      resizing := true;
    }
  }

  /** Mounting with one child and an initial secondary size of 20: there is no
      splitter, and the size is 20 in either orientation. */
  method MountOneChildWithInitialSize(vertical: bool, container: Rect, splitter: Rect)
    returns (size: real, hasSplitter: bool)
    ensures size == 20.0 && !hasSplitter
  {
    var props := DefaultProps().(vertical := vertical, secondaryInitialSize := Some(20.0));
    var layout := new SplitterLayout(props, 1, container, splitter);
    size, hasSplitter := layout.secondaryPaneSize, layout.splitterMounted;
  }

  /** Mounting with two children sets the splitter reference; a fresh layout
      is not resizing, and a mouse-down on its splitter makes it resize. */
  method MountTwoChildrenAndPress(container: Rect, splitter: Rect)
    returns (hasSplitter: bool, resizingBefore: bool, resizingAfter: bool)
    ensures hasSplitter && !resizingBefore && resizingAfter
  {
    var props := DefaultProps();
    var layout := new SplitterLayout(props, 2, container, splitter);
    hasSplitter := layout.splitterMounted;
    resizingBefore := layout.resizing;
    layout.MouseDown();
    resizingAfter := layout.resizing;
  }
}
