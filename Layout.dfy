/**
 * Placement arithmetic of the card: where the category and progression labels sit
 * inside their groups, and where the main and progression cards are translated to
 * inside the viewport. Every size measured in the rendered document is an input.
 */
module Layout {
  import opened Values
  import opened Settings

  /** Width and height of a measured element. */
  datatype Box = Box(width: real, height: real)

  /**
   * What the document measurement returns for each element the layout asks about;
   * None when no element of that class exists.
   */
  datatype Measurements = Measurements(
    contentGrp: Option<Box>, cardGrp: Option<Box>,
    progressionContentGrp: Option<Box>, progressionCardGrp: Option<Box>,
    progressionLabelGrp: Option<Box>)

  /** The sizes the card placement uses. */
  datatype Extents = Extents(
    contentWidth: real, contentHeight: real,
    progressionContentWidth: real, progressionContentHeight: real,
    progressionLabelWidth: real)

  /** A label's translation inside its group, and whether the alignment was unrecognised. */
  datatype Offset = Offset(x: real, y: real, unknownAlignment: bool)

  /** The translation of one card. */
  datatype Translation = Translation(x: real, y: real)

  predicate KnownAlignment(alignment: string)
  {
    alignment == "left" || alignment == "center" || alignment == "right"
  }

  function WidthOf(b: Option<Box>): real
  {
    if b.None? then 0.0 else b.value.width
  }

  /**
   * The sizes read before placing the cards. A missing element measures 0. The
   * content heights are read from the enclosing card groups, which also hold the
   * labels, whereas the presence test looks at the content group. A content group
   * always sits inside its card group.
   */
  function MeasuredExtents(m: Measurements): (e: Extents)
    requires m.contentGrp.Some? ==> m.cardGrp.Some?
    requires m.progressionContentGrp.Some? ==> m.progressionCardGrp.Some?
    ensures m.contentGrp.None? ==> e.contentWidth == 0.0 && e.contentHeight == 0.0
    ensures m.contentGrp.Some? ==>
              e.contentWidth == m.contentGrp.value.width && e.contentHeight == m.cardGrp.value.height
    ensures m.progressionContentGrp.None? ==>
              e.progressionContentWidth == 0.0 && e.progressionContentHeight == 0.0
    ensures m.progressionContentGrp.Some? ==>
              e.progressionContentWidth == m.progressionContentGrp.value.width &&
              e.progressionContentHeight == m.progressionCardGrp.value.height
    ensures e.progressionLabelWidth == (if m.progressionLabelGrp.None? then 0.0 else m.progressionLabelGrp.value.width)
  {
    Extents(
      WidthOf(m.contentGrp),
      if m.contentGrp.None? then 0.0 else m.cardGrp.value.height,
      WidthOf(m.progressionContentGrp),
      if m.progressionContentGrp.None? then 0.0 else m.progressionCardGrp.value.height,
      WidthOf(m.progressionLabelGrp))
  }

  /**
   * A label's x inside a content of width `contentWidth`: flush left, centred on
   * the content, or flush right; 0 with the diagnostic flag for any other alignment.
   */
  function AlignedX(alignment: string, contentWidth: real, labelWidth: real): (o: Offset)
    ensures o.y == 0.0
    ensures o.unknownAlignment <==> !KnownAlignment(alignment)
    ensures alignment == "left" || o.unknownAlignment ==> o.x == 0.0
    ensures alignment == "center" ==> o.x + labelWidth / 2.0 == contentWidth / 2.0
    ensures alignment == "right" ==> o.x + labelWidth == contentWidth
  {
    if alignment == "left" then Offset(0.0, 0.0, false)
    else if alignment == "center" then Offset(contentWidth / 2.0 - labelWidth / 2.0, 0.0, false)
    else if alignment == "right" then Offset(contentWidth - labelWidth, 0.0, false)
    else Offset(0.0, 0.0, true)
  }

  /**
   * The category label's offset: aligned on the main content and lowered to half the
   * content height plus a quarter of its own height.
   */
  function CategoryLabelOffset(alignment: string, contentWidth: real, contentHeight: real,
                               labelWidth: real, labelHeight: real): (o: Offset)
    ensures o.y == contentHeight / 2.0 + labelHeight * 0.25
    ensures o.unknownAlignment <==> !KnownAlignment(alignment)
    ensures alignment == "left" || o.unknownAlignment ==> o.x == 0.0
    ensures alignment == "center" ==> o.x + labelWidth / 2.0 == contentWidth / 2.0
    ensures alignment == "right" ==> o.x + labelWidth == contentWidth
  {
    AlignedX(alignment, contentWidth, labelWidth).(y := contentHeight / 2.0 + labelHeight * 0.25)
  }

  /**
   * The progression label's offset. Inline, it follows the progression value on the
   * same line, `marginSpace` to its right, whatever the recognised alignment; on its
   * own line it is placed exactly like the category label.
   */
  function ProgressionLabelOffset(inlineBlock: bool, alignment: string, marginSpace: real,
                                  contentWidth: real, contentHeight: real,
                                  labelWidth: real, labelHeight: real): (o: Offset)
    ensures o.unknownAlignment <==> !KnownAlignment(alignment)
    ensures inlineBlock && KnownAlignment(alignment) ==> o == Offset(contentWidth + marginSpace, 0.0, false)
    ensures inlineBlock && !KnownAlignment(alignment) ==> o.x == 0.0 && o.y == 0.0
    ensures !inlineBlock ==>
              o == CategoryLabelOffset(alignment, contentWidth, contentHeight, labelWidth, labelHeight)
  {
    if inlineBlock then
      if KnownAlignment(alignment) then Offset(contentWidth + marginSpace, 0.0, false)
      else Offset(0.0, 0.0, true)
    else
      CategoryLabelOffset(alignment, contentWidth, contentHeight, labelWidth, labelHeight)
  }

  /** The horizontal room the progression card takes: its value, plus the label when inline. */
  function ProgressionWidth(inlineBlock: bool, marginSpace: real, e: Extents): real
  {
    if inlineBlock then e.progressionContentWidth + marginSpace + e.progressionLabelWidth
    else e.progressionContentWidth
  }

  /**
   * The extra inset that keeps a card clear of rounded corners on one side: 0.6 of
   * the radius, applied only while the background or the border is drawn.
   */
  function CornerInset(stroke: StrokeSettings, fill: FillSettings, upper: bool, lower: bool): (d: real)
    ensures d == 0.0 || d == stroke.cornerRadius * 0.6
    ensures d != 0.0 ==> (stroke.show || fill.show) && (upper || lower)
    ensures (stroke.show || fill.show) && (upper || lower) ==> d == stroke.cornerRadius * 0.6
  {
    if (stroke.show || fill.show) && (upper || lower) then stroke.cornerRadius * 0.6 else 0.0
  }

  /**
   * The x coordinates of the main and the progression card, as a pair (main,
   * progression). For an unrecognised alignment neither is assigned.
   */
  function CardsX(alignment: string, viewportWidth: real, alignmentSpacing: real,
                  stroke: StrokeSettings, fill: FillSettings,
                  inlineBlock: bool, marginSpace: real, e: Extents): (r: Option<(real, real)>)
    ensures r.Some? <==> KnownAlignment(alignment)
    ensures alignment == "left" ==>
              r == Some((alignmentSpacing + CornerInset(stroke, fill, stroke.topLeft, stroke.bottomLeft),
                         alignmentSpacing + CornerInset(stroke, fill, stroke.topLeft, stroke.bottomLeft)))
    ensures alignment == "center" ==>
              r.value.0 + e.contentWidth / 2.0 == viewportWidth / 2.0 &&
              r.value.1 + ProgressionWidth(inlineBlock, marginSpace, e) / 2.0 == viewportWidth / 2.0
    ensures alignment == "right" ==>
              var inset := CornerInset(stroke, fill, stroke.topRight, stroke.bottomRight);
              r.value.0 + e.contentWidth + alignmentSpacing + inset == viewportWidth &&
              r.value.1 + ProgressionWidth(inlineBlock, marginSpace, e) + alignmentSpacing + inset == viewportWidth
  {
    var pw := ProgressionWidth(inlineBlock, marginSpace, e);
    if alignment == "left" then
      var x := alignmentSpacing + CornerInset(stroke, fill, stroke.topLeft, stroke.bottomLeft);
      Some((x, x))
    else if alignment == "center" then
      Some((viewportWidth / 2.0 - e.contentWidth / 2.0, viewportWidth / 2.0 - pw / 2.0))
    else if alignment == "right" then
      var inset := CornerInset(stroke, fill, stroke.topRight, stroke.bottomRight);
      Some((viewportWidth - e.contentWidth - alignmentSpacing - inset,
            viewportWidth - pw - alignmentSpacing - inset))
    else None
  }

  /**
   * The y coordinates of the main and the progression card, as a pair (main,
   * progression), in the two vertical modes.
   */
  function CardsY(centerVertical: bool, viewportHeight: real,
                  categoryShown: bool, progressionLabelShown: bool,
                  dataPresent: bool, progressionPresent: bool,
                  marginTop: real, e: Extents): (r: (real, real))
    ensures var mainDrop := if categoryShown then 0.0 else e.contentHeight * 0.3;
            var progressionDrop := if progressionLabelShown then 0.0 else e.progressionContentHeight * 0.3;
            centerVertical ==>
              r.0 == viewportHeight / 2.0 + mainDrop &&
              r.1 - r.0 == progressionDrop - mainDrop + (if dataPresent then e.contentHeight else 0.0) + marginTop
    ensures var mainDrop := if categoryShown then 0.0 else e.contentHeight * 0.3;
            var progressionDrop := if progressionLabelShown then 0.0 else e.progressionContentHeight * 0.3;
            !centerVertical ==>
              r.0 == viewportHeight / 2.0 + mainDrop - (if progressionPresent then e.progressionContentHeight / 2.0 else 0.0) &&
              r.1 == viewportHeight / 2.0 + progressionDrop + e.contentHeight * 0.6 + marginTop
  {
    var mainDrop := if categoryShown then 0.0 else e.contentHeight * 0.3;
    var progressionDrop := if progressionLabelShown then 0.0 else e.progressionContentHeight * 0.3;
    if centerVertical then
      (viewportHeight / 2.0 + mainDrop,
       viewportHeight / 2.0 + progressionDrop + (if dataPresent then e.contentHeight else 0.0) + marginTop)
    else
      (viewportHeight / 2.0 + mainDrop - (if progressionPresent then e.progressionContentHeight / 2.0 else 0.0),
       viewportHeight / 2.0 + progressionDrop + e.contentHeight * 0.6 + marginTop)
  }

  /** Both card translations; the progression card is only moved when it exists. */
  function Arrange(s: VisualSettings, viewportWidth: real, viewportHeight: real,
                   dataPresent: bool, progressionPresent: bool, e: Extents)
    : (r: Option<(Translation, Option<Translation>)>)
    ensures r.Some? <==> KnownAlignment(s.general.alignment)
    ensures r.Some? ==> (r.value.1.Some? <==> progressionPresent)
    ensures var xs := CardsX(s.general.alignment, viewportWidth, s.general.alignmentSpacing,
                             s.strokeSettings, s.backgroundSettings,
                             s.progressionLabelSettings.inlineBlock, s.progressionLabelSettings.marginSpace, e);
            var ys := CardsY(s.dataLabelSettings.centerVertical, viewportHeight,
                             s.categoryLabelSettings.show, s.progressionLabelSettings.show,
                             dataPresent, progressionPresent, s.progressionSettings.marginTop, e);
            r.Some? ==> xs.Some? && r.value.0 == Translation(xs.value.0, ys.0) &&
                        (r.value.1.Some? ==> r.value.1.value == Translation(xs.value.1, ys.1))
  {
    var xs := CardsX(s.general.alignment, viewportWidth, s.general.alignmentSpacing,
                     s.strokeSettings, s.backgroundSettings,
                     s.progressionLabelSettings.inlineBlock, s.progressionLabelSettings.marginSpace, e);
    var ys := CardsY(s.dataLabelSettings.centerVertical, viewportHeight,
                     s.categoryLabelSettings.show, s.progressionLabelSettings.show,
                     dataPresent, progressionPresent, s.progressionSettings.marginTop, e);
    if xs.None? then None
    else Some((Translation(xs.value.0, ys.0),
               if progressionPresent then Some(Translation(xs.value.1, ys.1)) else None))
  }

  // ---------------------------------------------------------------------------
  // Properties of the placement

  /** The stroke settings seen in a mirror: left and right corner flags swap. */
  function Mirror(s: StrokeSettings): StrokeSettings
  {
    s.(topLeft := s.topRight, topRight := s.topLeft, bottomLeft := s.bottomRight, bottomRight := s.bottomLeft,
       topLeftInward := s.topRightInward, topRightInward := s.topLeftInward,
       bottomLeftInward := s.bottomRightInward, bottomRightInward := s.bottomLeftInward)
  }

  /**
   * Right alignment mirrors left: the gap between a right-aligned card's right edge
   * and the viewport's right edge is the left-aligned x of the mirrored border.
   */
  lemma RightMirrorsLeft(viewportWidth: real, alignmentSpacing: real, stroke: StrokeSettings,
                         fill: FillSettings, inlineBlock: bool, marginSpace: real, e: Extents)
    ensures var right := CardsX("right", viewportWidth, alignmentSpacing, stroke, fill, inlineBlock, marginSpace, e).value;
            var left := CardsX("left", viewportWidth, alignmentSpacing, Mirror(stroke), fill, inlineBlock, marginSpace, e).value;
            viewportWidth - (right.0 + e.contentWidth) == left.0 &&
            viewportWidth - (right.1 + ProgressionWidth(inlineBlock, marginSpace, e)) == left.1
  {
  }

  /** With the default border no corner inset applies: left-aligned cards sit at the spacing. */
  lemma DefaultBorderHasNoInset(viewportWidth: real, alignmentSpacing: real, fill: FillSettings,
                                inlineBlock: bool, marginSpace: real, e: Extents)
    ensures CardsX("left", viewportWidth, alignmentSpacing, DefaultStroke, fill, inlineBlock, marginSpace, e)
            == Some((alignmentSpacing, alignmentSpacing))
    ensures CardsX("right", viewportWidth, alignmentSpacing, DefaultStroke, fill, inlineBlock, marginSpace, e).value.0
            == viewportWidth - e.contentWidth - alignmentSpacing
  {
  }

  /**
   * Centred by default: with the default general settings the main card's midpoint
   * is the viewport's midpoint.
   */
  lemma DefaultAlignmentCentres(viewportWidth: real, stroke: StrokeSettings, fill: FillSettings,
                                inlineBlock: bool, marginSpace: real, e: Extents)
    ensures DefaultGeneral.alignment == "center" && DefaultGeneral.alignmentSpacing == 10.0
    ensures var r := CardsX(DefaultGeneral.alignment, viewportWidth, DefaultGeneral.alignmentSpacing,
                            stroke, fill, inlineBlock, marginSpace, e);
            r.Some? && r.value.0 + e.contentWidth / 2.0 == viewportWidth / 2.0
  {
  }

  /**
   * Vertically centred mode: the main card's y does not depend on the progression
   * card, and with both labels shown the progression card sits exactly the main
   * content's height plus the top margin below the main card.
   */
  lemma CenterVerticalStacksBelowMain(viewportHeight: real, categoryShown: bool, progressionLabelShown: bool,
                                      progressionPresent: bool, marginTop: real, e: Extents)
    ensures CardsY(true, viewportHeight, categoryShown, progressionLabelShown, true, progressionPresent, marginTop, e).0
         == CardsY(true, viewportHeight, categoryShown, !progressionLabelShown, true, !progressionPresent, 0.0,
                   e.(progressionContentHeight := 0.0)).0
    ensures var r := CardsY(true, viewportHeight, true, true, true, progressionPresent, marginTop, e);
            r.1 - r.0 == e.contentHeight + marginTop
  {
  }

  /**
   * Default mode: with both labels shown the two cards are balanced around the
   * viewport's middle; the main card rises by half the progression content height,
   * the progression card sits 0.6 of the main content height plus the margin below
   * the middle.
   */
  lemma DefaultModeBalances(viewportHeight: real, marginTop: real, e: Extents)
    ensures var r := CardsY(false, viewportHeight, true, true, true, true, marginTop, e);
            r.0 == viewportHeight / 2.0 - e.progressionContentHeight / 2.0 &&
            r.1 == viewportHeight / 2.0 + e.contentHeight * 0.6 + marginTop
    ensures CardsY(false, viewportHeight, true, true, true, false, marginTop, e).0 == viewportHeight / 2.0
  {
  }

  /** A hidden label lowers its card by 0.3 of its content height, in both modes. */
  lemma HiddenLabelLowersCard(centerVertical: bool, viewportHeight: real, progressionLabelShown: bool,
                              dataPresent: bool, progressionPresent: bool, marginTop: real, e: Extents)
    ensures CardsY(centerVertical, viewportHeight, false, progressionLabelShown, dataPresent, progressionPresent, marginTop, e).0
         == CardsY(centerVertical, viewportHeight, true, progressionLabelShown, dataPresent, progressionPresent, marginTop, e).0
            + e.contentHeight * 0.3
  {
  }
}
