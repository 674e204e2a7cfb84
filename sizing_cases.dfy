/** The concrete sizing scenarios the layout's behaviour is pinned to, one
    lemma per scenario. The container is 1024 by 512 at the origin and the
    splitter is 4 thick throughout. */
module SizingCases {
  import opened Config
  import opened Sizing

  function Container(): Rect { Rect(0.0, 0.0, 1024.0, 512.0) }

  /** A splitter 4 wide at x = 40, for a horizontal layout. */
  function ColumnSplitter(): Rect { Rect(0.0, 40.0, 4.0, 512.0) }

  function LayoutProps(vertical: bool, percentage: bool, primaryIndex: int, primaryMin: real, secondaryMin: real): Props {
    Props(vertical, percentage, primaryIndex, primaryMin, secondaryMin, None)
  }

  lemma HorizontalPixelFirstPrimary()
    ensures var p := LayoutProps(false, false, 0, 0.0, 0.0);
      && GetSecondaryPaneSize(p, Container(), ColumnSplitter(), Position(50.0, 200.0), true) == 972.0
      && GetSecondaryPaneSize(p, Container(), ColumnSplitter(), Position(50.0, 200.0), false) == 970.0
  {
  }

  lemma VerticalPixelFirstPrimary()
    ensures var p := LayoutProps(true, false, 0, 0.0, 0.0);
      var splitter := Rect(40.0, 0.0, 1024.0, 4.0);
      && GetSecondaryPaneSize(p, Container(), splitter, Position(50.0, 200.0), true) == 310.0
      && GetSecondaryPaneSize(p, Container(), splitter, Position(50.0, 200.0), false) == 308.0
  {
  }

  lemma HorizontalPercentageFirstPrimary()
    ensures var p := LayoutProps(false, true, 0, 0.0, 0.0);
      && GetSecondaryPaneSize(p, Container(), ColumnSplitter(), Position(512.0, 128.0), true) == 49.8046875
      && GetSecondaryPaneSize(p, Container(), ColumnSplitter(), Position(512.0, 128.0), false) == 49.609375
  {
  }

  lemma VerticalPercentageFirstPrimary()
    ensures var p := LayoutProps(true, true, 0, 0.0, 0.0);
      var splitter := Rect(0.0, 40.0, 512.0, 4.0);
      && GetSecondaryPaneSize(p, Container(), splitter, Position(512.0, 128.0), true) == 74.609375
      && GetSecondaryPaneSize(p, Container(), splitter, Position(512.0, 128.0), false) == 74.21875
  {
  }

  lemma HorizontalPixelSecondPrimary()
    ensures var p := LayoutProps(false, false, 1, 0.0, 0.0);
      && GetSecondaryPaneSize(p, Container(), ColumnSplitter(), Position(50.0, 200.0), true) == 48.0
      && GetSecondaryPaneSize(p, Container(), ColumnSplitter(), Position(50.0, 200.0), false) == 50.0
  {
  }

  lemma VerticalPixelSecondPrimary()
    ensures var p := LayoutProps(true, false, 1, 0.0, 0.0);
      var splitter := Rect(40.0, 0.0, 1024.0, 4.0);
      && GetSecondaryPaneSize(p, Container(), splitter, Position(50.0, 200.0), true) == 198.0
      && GetSecondaryPaneSize(p, Container(), splitter, Position(50.0, 200.0), false) == 200.0
  {
  }

  lemma HorizontalPercentageSecondPrimary()
    ensures var p := LayoutProps(false, true, 1, 0.0, 0.0);
      && GetSecondaryPaneSize(p, Container(), ColumnSplitter(), Position(512.0, 128.0), true) == 49.8046875
      && GetSecondaryPaneSize(p, Container(), ColumnSplitter(), Position(512.0, 128.0), false) == 50.0
  {
  }

  lemma VerticalPercentageSecondPrimary()
    ensures var p := LayoutProps(true, true, 1, 0.0, 0.0);
      var splitter := Rect(0.0, 40.0, 512.0, 4.0);
      && GetSecondaryPaneSize(p, Container(), splitter, Position(512.0, 128.0), true) == 24.609375
      && GetSecondaryPaneSize(p, Container(), splitter, Position(512.0, 128.0), false) == 25.0
  {
  }

  /** A pointer before the container or past its far edge is held at the edge. */
  lemma PointerOutsideContainer()
    ensures var p := LayoutProps(false, false, 0, 0.0, 0.0);
      && GetSecondaryPaneSize(p, Container(), ColumnSplitter(), Position(-10.0, 200.0), true) == 1020.0
      && GetSecondaryPaneSize(p, Container(), ColumnSplitter(), Position(-10.0, 200.0), false) == 1020.0
      && GetSecondaryPaneSize(p, Container(), ColumnSplitter(), Position(1050.0, 200.0), true) == 0.0
      && GetSecondaryPaneSize(p, Container(), ColumnSplitter(), Position(1050.0, 200.0), false) == 0.0
  {
  }

  lemma SecondaryMinimumHonoured()
    ensures var p := LayoutProps(false, false, 0, 0.0, 200.0);
      && GetSecondaryPaneSize(p, Container(), ColumnSplitter(), Position(1024.0, 200.0), true) == 200.0
      && GetSecondaryPaneSize(p, Container(), ColumnSplitter(), Position(1024.0, 200.0), false) == 200.0
  {
  }

  /** Both minimums are 600 on a 1024 container: only the primary one is kept. */
  lemma PrimaryMinimumBeatsSecondary()
    ensures var p := LayoutProps(false, false, 0, 600.0, 600.0);
      && GetSecondaryPaneSize(p, Container(), ColumnSplitter(), Position(500.0, 200.0), true) == 420.0
      && GetSecondaryPaneSize(p, Container(), ColumnSplitter(), Position(500.0, 200.0), false) == 420.0
      && GetSecondaryPaneSize(p, Container(), ColumnSplitter(), Position(900.0, 200.0), true) == 420.0
      && GetSecondaryPaneSize(p, Container(), ColumnSplitter(), Position(900.0, 200.0), false) == 420.0
  {
  }

  /** A primary minimum wider than the container leaves nothing for the secondary pane. */
  lemma PrimaryMinimumWiderThanContainer()
    ensures var p := LayoutProps(false, false, 0, 1200.0, 200.0);
      && GetSecondaryPaneSize(p, Container(), ColumnSplitter(), Position(200.0, 200.0), true) == 0.0
      && GetSecondaryPaneSize(p, Container(), ColumnSplitter(), Position(200.0, 200.0), false) == 0.0
  {
  }
}
