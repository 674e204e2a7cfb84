# Splitter layout — sizing, render policy and drag state

A model of the core of a React two-pane splitter layout. The layout puts up to
two children side by side or stacked, with a draggable splitter between them.
It stores one number, the size of the *secondary* pane. The *primary* pane fills
whatever room is left.

The model has four parts:

- `Config`: the props the core reads (`vertical`, `percentage`, `primaryIndex`,
  `primaryMinSize`, `secondaryMinSize`, `secondaryInitialSize`), bounding
  rectangles and pointer positions, and axis selection (`width`/`left` for a
  horizontal layout, `height`/`top` for a vertical one).
- `Sizing`: `getSecondaryPaneSize(containerRect, splitterRect, position, offsetMouse)`
  as a pure function over `real`, plus its properties.
  1. The pointer offset is taken from the container's near edge. When the fourth
     argument is true, half the splitter thickness is subtracted.
  2. The offset is clamped to the room the splitter leaves.
  3. The offset becomes the secondary size: it is that size when `primaryIndex` is 1,
     and the room after it otherwise.
  4. In percentage mode the size is scaled to percent of the container.
  5. The minimums are applied. A violated primary minimum is repaired first and
     wins over the secondary minimum.

  `SizingCases` restates every asserted sizing scenario as a lemma.
- `Render`: the render policy as a pure function of the child count, the props and
  the stored size. It always produces three slots.
  - With two or more children: pane, splitter, pane. Children past the second are
    ignored.
  - With fewer: one primary pane, then two empty slots.
  - `primaryIndex` other than 0 or 1 behaves as 0.
  - Every pane carries `vertical` and `percentage`.
- `Controller`: the mounted component as a class. It holds `resizing`, the stored
  `secondaryPaneSize` and whether the splitter element exists. Mounting seeds the
  size from `secondaryInitialSize` even when there is no splitter. A mouse-down
  on the splitter sets `resizing`.

The component's own source is not part of this model. Its behaviour is fixed by
the assertions of `test/SplitterLayout.spec.jsx`, which every cited line below
refers to.

The fourth argument of `getSecondaryPaneSize` is sometimes described as a
"primary pane comes first" switch. The asserted values rule that reading out:

- 972 against 970 at lines 139-140;
- 48 against 50 at lines 211-212.

Both pairs differ by exactly half the splitter thickness, in the direction of a
pointer moved back by that much. The model follows the assertions: the argument
(`offsetMouse`) centres the pointer on the splitter.

The offset is clamped to `[0, container - splitter]`. The assertions at lines
282-285 (1020 and 0) are consistent with this bound but do not force it: a
clamp to `[0, container]` meets them too, because the minimum step repairs the
overshoot. The two bounds part only where the primary minimum lies between the
room and the container extent. For example, with a 1024 container, a splitter 4
thick, `primaryMinSize` 1022 and the pointer at 1050, this model gives 0, while
the wider clamp would give -2. The model keeps the narrower bound because it
keeps the size non-negative there.

One modelling choice is not fixed by any assertion. In percentage mode the
minimum sizes are compared with the size in percent; they are not converted to
pixels first. Every scenario with minimums is in pixel mode, so none of them
decides this. The lemmas that speak about minimums are stated for pixel mode,
or hold for any unit.

## Model

| member | source | states |
|---|---|---|
| `Sizing.GetSecondaryPaneSize` | test/SplitterLayout.spec.jsx:124-342 | with the splitter inside the container and non-negative minimums, the size lies between 0 and the room the splitter leaves, in the configured unit; its value is fixed by `PixelFirstPanePrimary`, `PixelSecondPanePrimary`, `OffsetMouseCentresOnSplitter`, `PercentageIsScaledPixels`, `PixelMinimums` and `PointerMonotone` |
| `Sizing.ClampOffset` | test/SplitterLayout.spec.jsx:269-286 | when the splitter fits, the clamped offset lies in `[0, container - splitter]`, and an offset already in that range is kept |
| `Sizing.ClampIsNearest` | test/SplitterLayout.spec.jsx:269-286 | the clamp returns the point of the allowed range nearest to the pointer offset |
| `Sizing.ApplyMinimums` | test/SplitterLayout.spec.jsx:288-341 | the primary minimum holds whenever it fits; the secondary minimum holds whenever both fit; a violated primary minimum that fits is met exactly (`free - primaryMin`); a violated secondary minimum is raised to exactly that minimum when both fit and the primary one holds; when only the primary one fits the primary pane gets exactly its minimum; when even that does not fit the secondary size is 0; a split meeting both minimums is unchanged; a split inside the free room stays inside it |
| `Sizing.ApplyMinimumsMonotone` | test/SplitterLayout.spec.jsx:306-323 | applying the minimums preserves the order of two non-negative raw secondary sizes |
| `Sizing.OffsetMouseCentresOnSplitter` | test/SplitterLayout.spec.jsx:137-140 | passing `true` as the fourth argument gives the same size as passing `false` with the pointer moved back half a splitter thickness along the active axis |
| `Sizing.PixelFirstPanePrimary` | test/SplitterLayout.spec.jsx:125-159 | pixel mode, no minimums, primary index not 1: the size is the room after the pointer offset, the whole room for a pointer before the container, and 0 for a pointer past the room |
| `Sizing.PixelSecondPanePrimary` | test/SplitterLayout.spec.jsx:197-231 | pixel mode, no minimums, primary index 1: the size is the pointer offset, 0 before the container, and the whole room past it |
| `Sizing.PercentageIsScaledPixels` | test/SplitterLayout.spec.jsx:161-267 | with no minimums the percentage-mode size is exactly the pixel-mode size times 100 over the container extent |
| `Sizing.PixelMinimums` | test/SplitterLayout.spec.jsx:288-341 | pixel mode with non-negative minimums: the size stays in `[0, container - splitter]`; a split before the minimums that meets both is kept; a violated primary minimum that fits gives exactly `room - primaryMin`; a violated secondary minimum gives exactly that minimum when both fit and the primary one holds; the primary minimum wins when both cannot hold, giving exactly `room - primaryMin` for every pointer position; a primary minimum larger than the room gives 0 |
| `Sizing.PointerMonotone` | test/SplitterLayout.spec.jsx:269-286 | moving the pointer toward the far edge never grows the secondary pane when it comes second, and never shrinks it when it comes first (primary index 1) |
| `Sizing.EvenSplit` | test/SplitterLayout.spec.jsx:369-377 | a pointer at the centre of the free room splits it evenly, in pixels or in percent, for either primary index, as long as the minimums (in the configured unit) fit in half the room; this is the mount-time fallback when no initial size is configured |
| `SizingCases.HorizontalPixelFirstPrimary` | test/SplitterLayout.spec.jsx:125-141 | sizes 972 and 970 |
| `SizingCases.VerticalPixelFirstPrimary` | test/SplitterLayout.spec.jsx:143-159 | sizes 310 and 308 |
| `SizingCases.HorizontalPercentageFirstPrimary` | test/SplitterLayout.spec.jsx:161-177 | sizes 49.8046875 and 49.609375 |
| `SizingCases.VerticalPercentageFirstPrimary` | test/SplitterLayout.spec.jsx:179-195 | sizes 74.609375 and 74.21875 |
| `SizingCases.HorizontalPixelSecondPrimary` | test/SplitterLayout.spec.jsx:197-213 | sizes 48 and 50 |
| `SizingCases.VerticalPixelSecondPrimary` | test/SplitterLayout.spec.jsx:215-231 | sizes 198 and 200 |
| `SizingCases.HorizontalPercentageSecondPrimary` | test/SplitterLayout.spec.jsx:233-249 | sizes 49.8046875 and 50 |
| `SizingCases.VerticalPercentageSecondPrimary` | test/SplitterLayout.spec.jsx:251-267 | sizes 24.609375 and 25 |
| `SizingCases.PointerOutsideContainer` | test/SplitterLayout.spec.jsx:269-286 | 1020 for a pointer before the container and 0 for one beyond it, for both values of the fourth argument |
| `SizingCases.SecondaryMinimumHonoured` | test/SplitterLayout.spec.jsx:288-304 | a pointer at the far edge with secondary minimum 200 gives exactly 200 |
| `SizingCases.PrimaryMinimumBeatsSecondary` | test/SplitterLayout.spec.jsx:306-323 | minimums 600 and 600 on 1024 give 420 at pointers 500 and 900 |
| `SizingCases.PrimaryMinimumWiderThanContainer` | test/SplitterLayout.spec.jsx:325-341 | a primary minimum of 1200 on 1024 gives 0 |
| `Render.NormalizePrimaryIndex` | test/SplitterLayout.spec.jsx:61-78 | the normalised index is 0 or 1, and it is 1 exactly when the configured index is 1 |
| `Render.PaneCount` | test/SplitterLayout.spec.jsx:80-121 | one or two panes, two exactly when there are at least two children |
| `Render.Slots` | test/SplitterLayout.spec.jsx:22-121 | always three slots; slot 0 a pane; slot 1 the splitter exactly when there are two or more children, otherwise absent; slot 2 a pane in the same case, otherwise absent; every pane carries `vertical` and `percentage`; a lone pane is primary; of two panes the second is primary exactly when the primary index is 1, and exactly one of them is |
| `Render.ExtraChildrenIgnored` | test/SplitterLayout.spec.jsx:106-121 | any number of children from two up renders the same output as two |
| `Render.ExactlyOnePrimaryPane` | test/SplitterLayout.spec.jsx:22-121 | every output has exactly one primary pane |
| `Render.PanesWrapChildren` | test/SplitterLayout.spec.jsx:80-121 | a pane has a size exactly when it is not primary, and that size is the stored secondary size; pane 0 wraps child 0 (no child when there are none); pane 2 wraps child 1; the tests assert the wrapping but not the size clause, which models the layout's passing of the stored size to the secondary pane |
| `Render.RenderTwoChildren` | test/SplitterLayout.spec.jsx:22-37 | two children with default props: primary pane, splitter, secondary pane, horizontal and pixel |
| `Render.RenderRequestedProps` | test/SplitterLayout.spec.jsx:39-59 | vertical, percentage and primary index 1: the second pane is primary and both panes carry both flags |
| `Render.RenderInvalidPrimaryIndex` | test/SplitterLayout.spec.jsx:61-78 | primary index 5 makes the first pane primary |
| `Render.RenderAtMostOneChild` | test/SplitterLayout.spec.jsx:80-104 | zero or one child: a primary pane and two absent slots |
| `Render.RenderFiveChildren` | test/SplitterLayout.spec.jsx:106-121 | five children render as two panes around a splitter |
| `Controller.InitialSecondarySize` | test/SplitterLayout.spec.jsx:369-377 | a configured initial size is used as it is; without one, half the free room in the configured unit whenever the splitter fits and the minimums fit in that half |
| `Controller.SplitterLayout.constructor` | test/SplitterLayout.spec.jsx:345-377 | after mount: not resizing; the splitter reference exists exactly when there are two or more children, which is exactly when the output holds a splitter; the stored size is the initial size |
| `Controller.SplitterLayout.MouseDown` | test/SplitterLayout.spec.jsx:362-367 | a mouse-down on an existing splitter sets `resizing`; the stored size is unchanged |
| `Controller.MountOneChildWithInitialSize` | test/SplitterLayout.spec.jsx:356-377 | one child with initial size 20: no splitter reference, and the stored size is 20 in either orientation |
| `Controller.MountTwoChildrenAndPress` | test/SplitterLayout.spec.jsx:345-367 | two children: the splitter reference exists, `resizing` is false after mount and true after a mouse-down on the splitter |

## Left out

- Mouse-move and mouse-up handlers: the tests assert only that they are registered on `document`. What they do to the state is not modelled.
- The window resize handler is not modelled, for the same reason.
- Registering and removing listeners on `window` and `document` is event plumbing and is not modelled.
- React rendering machinery is not modelled: element types, refs as DOM nodes, the shallow renderer.
- The root element's CSS class string (`splitter-layout`, `customClassName`, `splitter-layout-vertical`) is cosmetic and is not modelled.
- Pane styling lives in the `Pane` component. `src/components/Pane` is not part of this model.
- Numbers are exact `real`s, not IEEE doubles. Every asserted value is exactly representable.
- Sizing.GetSecondaryPaneSize: in percentage mode it requires a non-zero container extent. The host would divide by zero and get NaN or Infinity.
- Sizing.PercentageIsScaledPixels: stated for zero minimums only. Percentage-mode minimums are compared in percent, and no scenario pins them down.
- Sizing.PixelMinimums: stated for pixel mode only, for the same reason.
- Controller.InitialSecondarySize: without an initial size, the container and splitter rectangles are parameters measured by the host. When no splitter is rendered, the splitter rectangle is whatever the host supplies.
