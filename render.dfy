/** The render policy of the splitter layout: which panes and whether a
    splitter appear, as a pure function of the number of children, the props
    and the stored secondary pane size. The root element and its CSS classes
    are not modelled; the three slots under it are. */
module Render {
  import opened Config

  /** One slot under the layout's root element: a pane wrapping a child, the
      splitter element, or nothing at all (a literal `false` in the output). */
  datatype Slot =
    | Pane(primary: bool, vertical: bool, percentage: bool, child: Option<nat>, size: Option<real>)
    | Splitter
    | Absent

  /** `primaryIndex` as the layout uses it: anything but 0 or 1 falls back to 0. */
  function NormalizePrimaryIndex(i: int): (r: nat)
    ensures r <= 1
    ensures r == 1 <==> i == 1
  {
    if i != 0 && i != 1 then 0 else i
  }

  /** Panes rendered: children past the second are dropped, and an empty
      layout still gets one (empty) pane. */
  function PaneCount(childCount: nat): (n: nat)
    ensures 1 <= n <= 2
    ensures n == 2 <==> childCount >= 2
  {
    if childCount >= 2 then 2 else 1
  }

  /** The pane wrapping child `i`. A lone pane is always primary; the
      secondary pane is the only one given an explicit size. */
  function WrapPane(i: nat, childCount: nat, props: Props, secondarySize: real): Slot {
    var primary := PaneCount(childCount) == 1 || i == NormalizePrimaryIndex(props.primaryIndex);
    Pane(primary, props.vertical, props.percentage,
         if childCount == 0 then None else Some(i),
         if primary then None else Some(secondarySize))
  }

  /** The three slots under the layout's root element. */
  function Slots(childCount: nat, props: Props, secondarySize: real): (r: seq<Slot>)
    ensures |r| == 3
    ensures r[0].Pane?
    ensures r[1] == (if childCount >= 2 then Splitter else Absent)
    ensures r[2].Pane? <==> childCount >= 2
    ensures !r[2].Pane? ==> r[2] == Absent
    // every pane carries the orientation and the sizing unit
    ensures forall i :: 0 <= i < 3 && r[i].Pane? ==>
      r[i].vertical == props.vertical && r[i].percentage == props.percentage
    // a lone pane is primary; of two panes the second is primary exactly when primaryIndex is 1
    ensures childCount < 2 ==> r[0].primary
    ensures childCount >= 2 ==> (r[2].primary <==> props.primaryIndex == 1) && r[0].primary != r[2].primary
  {
    var n := PaneCount(childCount);
    [ WrapPane(0, childCount, props, secondarySize),
      if n == 2 then Splitter else Absent,
      if n == 2 then WrapPane(1, childCount, props, secondarySize) else Absent ]
  }

  /** Number of primary panes among the slots. */
  function PrimaryPanes(slots: seq<Slot>): nat {
    if slots == [] then 0
    else (if slots[0].Pane? && slots[0].primary then 1 else 0) + PrimaryPanes(slots[1..])
  }

  /** Children after the second change nothing in the output. */
  lemma ExtraChildrenIgnored(childCount: nat, props: Props, secondarySize: real)
    requires childCount >= 2
    ensures Slots(childCount, props, secondarySize) == Slots(2, props, secondarySize)
  {
  }

  /** Whatever the number of children, exactly one pane is primary. */
  lemma {:induction false} ExactlyOnePrimaryPane(childCount: nat, props: Props, secondarySize: real)
    ensures PrimaryPanes(Slots(childCount, props, secondarySize)) == 1
  {
    var r := Slots(childCount, props, secondarySize);
    assert r[1..][1..][1..] == [];
    assert PrimaryPanes(r[1..][1..]) == if r[2].Pane? && r[2].primary then 1 else 0;
    assert PrimaryPanes(r[1..]) == PrimaryPanes(r[1..][1..]);
  }

  /** Only the secondary pane gets a size, and it is the stored size. Panes
      wrap the children in order, the first pane being empty when there are none. */
  lemma PanesWrapChildren(childCount: nat, props: Props, secondarySize: real)
    ensures var r := Slots(childCount, props, secondarySize);
      && (forall i :: 0 <= i < 3 && r[i].Pane? ==>
            (r[i].size.Some? <==> !r[i].primary) && (r[i].size.Some? ==> r[i].size.value == secondarySize))
      && r[0].child == (if childCount == 0 then None else Some(0))
      && (childCount >= 2 ==> r[2].child == Some(1))
  {
  }

  // ---------------------------------------------------------------------------
  // The concrete render scenarios

  lemma RenderTwoChildren()
    ensures var r := Slots(2, DefaultProps(), 0.0);
      && r[0].Pane? && !r[0].vertical && r[0].primary && !r[0].percentage
      && r[1] == Splitter
      && r[2].Pane? && !r[2].vertical && !r[2].primary && !r[2].percentage
  {
  }

  lemma RenderRequestedProps()
    ensures var r := Slots(2, Props(true, true, 1, 0.0, 0.0, None), 0.0);
      && r[0].Pane? && r[0].vertical && !r[0].primary && r[0].percentage
      && r[1] == Splitter
      && r[2].Pane? && r[2].vertical && r[2].primary && r[2].percentage
  {
  }

  lemma RenderInvalidPrimaryIndex()
    ensures var r := Slots(2, DefaultProps().(primaryIndex := 5), 0.0);
      && r[0].Pane? && !r[0].vertical && r[0].primary && !r[0].percentage
      && r[1] == Splitter
      && r[2].Pane? && !r[2].vertical && !r[2].primary && !r[2].percentage
  {
  }

  lemma RenderAtMostOneChild(childCount: nat)
    requires childCount <= 1
    ensures var r := Slots(childCount, DefaultProps(), 0.0);
      && r[0].Pane? && !r[0].vertical && r[0].primary && !r[0].percentage
      && r[1] == Absent && r[2] == Absent
  {
  }

  lemma RenderFiveChildren()
    ensures var r := Slots(5, DefaultProps(), 0.0);
      && r[0].Pane? && !r[0].vertical && r[0].primary && !r[0].percentage
      && r[1] == Splitter
      && r[2].Pane? && !r[2].vertical && !r[2].primary && !r[2].percentage
  {
  }
}
