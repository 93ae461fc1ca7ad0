/**
 * The card's background and border: the rounded-rectangle outline as a list of
 * SVG path commands (section 8.3 of SVG 1.1: moveto, relative horizontal and
 * vertical lineto, relative elliptical arc, closepath), the dash pattern and the
 * fill and stroke colours.
 */
module CardBackground {
  import opened Values
  import opened Settings

  /** One path command; all but MoveTo are relative. */
  datatype Segment =
    | MoveTo(x: real, y: real)
    | Horizontal(dx: real)
    | Vertical(dy: real)
    | Arc(rx: real, ry: real, rotation: real, largeArc: int, sweep: int, dx: real, dy: real)
    | Close

  datatype Vec = Vec(dx: real, dy: real)
  {
    function Plus(o: Vec): Vec { Vec(dx + o.dx, dy + o.dy) }
  }

  /** How far a relative command moves the pen. */
  function Delta(s: Segment): Vec
  {
    match s
    case Horizontal(d) => Vec(d, 0.0)
    case Vertical(d) => Vec(0.0, d)
    case Arc(_, _, _, _, _, dx, dy) => Vec(dx, dy)
    case _ => Vec(0.0, 0.0)
  }

  /** The sum of the moves of a list of relative commands. */
  function Displacement(p: seq<Segment>): Vec
  {
    if p == [] then Vec(0.0, 0.0) else Delta(p[0]).Plus(Displacement(p[1..]))
  }

  lemma {:induction false} DisplacementAppend(a: seq<Segment>, b: seq<Segment>)
    ensures Displacement(a + b) == Displacement(a).Plus(Displacement(b))
  {
    if a == [] {
      assert a + b == b;
    } else {
      assert (a + b)[1..] == a[1..] + b;
      DisplacementAppend(a[1..], b);
    }
  }

  /** Arc sweep flag: 0 for a corner curving inward, 1 otherwise. */
  function Sweep(inward: bool): int
  {
    if inward then 0 else 1
  }

  /** A single command moves the pen by its own move. */
  lemma DisplacementSingle(b: Segment)
    ensures Displacement([b]) == Delta(b)
  {
    var single := [b];
    assert single[1..] == [];
  }

  /** Two consecutive commands move the pen by the sum of their moves. */
  lemma DisplacementPair(a: Segment, b: Segment)
    ensures Displacement([a, b]) == Delta(a).Plus(Delta(b))
  {
    DisplacementSingle(b);
    var pair := [a, b];
    assert pair[1..] == [b];
  }

  /**
   * One corner of the outline, moving the pen by (dx, dy): an arc of radius r when
   * the corner is rounded, else two axis-parallel strokes, horizontal first or not.
   */
  function Corner(rounded: bool, inward: bool, r: real, dx: real, dy: real, horizontalFirst: bool): seq<Segment>
  {
    if rounded then [Arc(r, r, 0.0, 0, Sweep(inward), dx, dy)]
    else if horizontalFirst then [Horizontal(dx), Vertical(dy)]
    else [Vertical(dy), Horizontal(dx)]
  }

  /**
   * A corner moves the pen by (dx, dy) whatever its shape. A rounded corner is one
   * circular arc of radius r, no rotation, small-arc flag 0, and sweep flag 0
   * exactly when it curves inward; a square corner is the two strokes.
   */
  lemma CornerShape(rounded: bool, inward: bool, r: real, dx: real, dy: real, horizontalFirst: bool)
    ensures Displacement(Corner(rounded, inward, r, dx, dy, horizontalFirst)) == Vec(dx, dy)
    ensures var c := Corner(rounded, inward, r, dx, dy, horizontalFirst);
            rounded ==> |c| == 1 && c[0].Arc? && c[0].rx == r && c[0].ry == r &&
                        c[0].rotation == 0.0 && c[0].largeArc == 0 && (c[0].sweep == 0 <==> inward)
    ensures var c := Corner(rounded, inward, r, dx, dy, horizontalFirst);
            !rounded ==> |c| == 2 && Horizontal(dx) in c && Vertical(dy) in c
  {
    if rounded {
      assert [Arc(r, r, 0.0, 0, Sweep(inward), dx, dy)][1..] == [];
    } else if horizontalFirst {
      DisplacementPair(Horizontal(dx), Vertical(dy));
    } else {
      DisplacementPair(Vertical(dy), Horizontal(dx));
    }
  }

  /** One side of the outline: a straight edge followed by the corner at its end. */
  function Side(edge: Segment, corner: seq<Segment>): seq<Segment>
  {
    [edge] + corner
  }

  /** A side moves the pen by its edge plus its corner. */
  lemma SideMoves(edge: Segment, corner: seq<Segment>)
    ensures Displacement(Side(edge, corner)) == Delta(edge).Plus(Displacement(corner))
  {
    assert ([edge] + corner)[1..] == corner;
  }

  function TopSide(w: real, s: StrokeSettings): seq<Segment>
  {
    var r := s.cornerRadius;
    Side(Horizontal(w - 2.0 * r), Corner(s.topRight, s.topRightInward, r, r, r, true))
  }

  function RightSide(h: real, s: StrokeSettings): seq<Segment>
  {
    var r := s.cornerRadius;
    Side(Vertical(h - 2.0 * r), Corner(s.bottomRight, s.bottomRightInward, r, -r, r, false))
  }

  function BottomSide(w: real, s: StrokeSettings): seq<Segment>
  {
    var r := s.cornerRadius;
    Side(Horizontal(2.0 * r - w), Corner(s.bottomLeft, s.bottomLeftInward, r, -r, -r, true))
  }

  function LeftSide(h: real, s: StrokeSettings): seq<Segment>
  {
    var r := s.cornerRadius;
    Side(Vertical(2.0 * r - h), Corner(s.topLeft, s.topLeftInward, r, r, -r, false))
  }

  /** The four sides in drawing order: top, right, bottom, left. */
  function Outline(w: real, h: real, s: StrokeSettings): seq<Segment>
  {
    TopSide(w, s) + RightSide(h, s) + BottomSide(w, s) + LeftSide(h, s)
  }

  /**
   * The whole path: a move to (x + r, y), then the top, right, bottom and left
   * edges of lengths w - 2r, h - 2r, 2r - w and 2r - h, each followed by its
   * corner (top-right, bottom-right, bottom-left, top-left), then closepath.
   */
  function RectPath(x: real, y: real, w: real, h: real, s: StrokeSettings): seq<Segment>
  {
    [MoveTo(x + s.cornerRadius, y)] + TopSide(w, s) + RightSide(h, s) + BottomSide(w, s) + LeftSide(h, s) + [Close]
  }

  /** The path starts with the absolute move to (x + r, y) and ends with closepath. */
  lemma RectPathEnds(x: real, y: real, w: real, h: real, s: StrokeSettings)
    ensures var p := RectPath(x, y, w, h, s);
            |p| >= 10 && p[0] == MoveTo(x + s.cornerRadius, y) && p[|p| - 1] == Close
  {
  }

  /** Concatenation regroups freely. */
  lemma Regroup(a: seq<Segment>, b: seq<Segment>, c: seq<Segment>)
    ensures a + b + c == a + (b + c)
  {
  }

  /** The path is the opening move, the outline, and closepath. */
  lemma RectPathFrame(x: real, y: real, w: real, h: real, s: StrokeSettings)
    ensures RectPath(x, y, w, h, s) == [MoveTo(x + s.cornerRadius, y)] + Outline(w, h, s) + [Close]
  {
    var start := [MoveTo(x + s.cornerRadius, y)];
    Regroup(start, TopSide(w, s), RightSide(h, s));
    Regroup(start, TopSide(w, s) + RightSide(h, s), BottomSide(w, s));
    Regroup(start, TopSide(w, s) + RightSide(h, s) + BottomSide(w, s), LeftSide(h, s));
  }

  /** Appending moves adds their displacements. */
  lemma AppendMoves(p: seq<Segment>, q: seq<Segment>, a: Vec, b: Vec)
    requires Displacement(p) == a && Displacement(q) == b
    ensures Displacement(p + q) == a.Plus(b)
  {
    DisplacementAppend(p, q);
  }

  lemma TopSideMoves(w: real, s: StrokeSettings)
    ensures Displacement(TopSide(w, s)) == Vec(w - s.cornerRadius, s.cornerRadius)
  {
    CornerShape(s.topRight, s.topRightInward, s.cornerRadius, s.cornerRadius, s.cornerRadius, true);
    SideMoves(Horizontal(w - 2.0 * s.cornerRadius), Corner(s.topRight, s.topRightInward, s.cornerRadius, s.cornerRadius, s.cornerRadius, true));
  }

  lemma RightSideMoves(h: real, s: StrokeSettings)
    ensures Displacement(RightSide(h, s)) == Vec(-s.cornerRadius, h - s.cornerRadius)
  {
    CornerShape(s.bottomRight, s.bottomRightInward, s.cornerRadius, -s.cornerRadius, s.cornerRadius, false);
    SideMoves(Vertical(h - 2.0 * s.cornerRadius), Corner(s.bottomRight, s.bottomRightInward, s.cornerRadius, -s.cornerRadius, s.cornerRadius, false));
  }

  lemma BottomSideMoves(w: real, s: StrokeSettings)
    ensures Displacement(BottomSide(w, s)) == Vec(s.cornerRadius - w, -s.cornerRadius)
  {
    CornerShape(s.bottomLeft, s.bottomLeftInward, s.cornerRadius, -s.cornerRadius, -s.cornerRadius, true);
    SideMoves(Horizontal(2.0 * s.cornerRadius - w), Corner(s.bottomLeft, s.bottomLeftInward, s.cornerRadius, -s.cornerRadius, -s.cornerRadius, true));
  }

  lemma LeftSideMoves(h: real, s: StrokeSettings)
    ensures Displacement(LeftSide(h, s)) == Vec(s.cornerRadius, s.cornerRadius - h)
  {
    CornerShape(s.topLeft, s.topLeftInward, s.cornerRadius, s.cornerRadius, -s.cornerRadius, false);
    SideMoves(Vertical(2.0 * s.cornerRadius - h), Corner(s.topLeft, s.topLeftInward, s.cornerRadius, s.cornerRadius, -s.cornerRadius, false));
  }

  /**
   * The outline closes: its relative moves sum to zero, so the pen ends where the
   * opening MoveTo put it, for every size and radius and all 16 combinations of
   * rounded and inward corners.
   */
  lemma OutlineCloses(w: real, h: real, s: StrokeSettings)
    ensures Displacement(Outline(w, h, s)) == Vec(0.0, 0.0)
  {
    var r := s.cornerRadius;
    TopSideMoves(w, s);
    RightSideMoves(h, s);
    BottomSideMoves(w, s);
    LeftSideMoves(h, s);
    AppendMoves(TopSide(w, s), RightSide(h, s), Vec(w - r, r), Vec(-r, h - r));
    AppendMoves(TopSide(w, s) + RightSide(h, s), BottomSide(w, s), Vec(w - 2.0 * r, h), Vec(r - w, -r));
    AppendMoves(TopSide(w, s) + RightSide(h, s) + BottomSide(w, s), LeftSide(h, s), Vec(-r, h - r), Vec(r, r - h));
  }

  /**
   * Appends one side as `rounded_rect` does: the edge, then an arc with the
   * corner's sweep flag, or two axis-parallel strokes.
   */
  method AppendSide(path: seq<Segment>, edge: Segment, rounded: bool, inward: bool,
                    r: real, dx: real, dy: real, horizontalFirst: bool) returns (p: seq<Segment>)
    ensures p == path + Side(edge, Corner(rounded, inward, r, dx, dy, horizontalFirst))
  {
    p := path + [edge];
    if rounded {
      p := p + [Arc(r, r, 0.0, 0, Sweep(inward), dx, dy)];
    } else if horizontalFirst {
      p := p + [Horizontal(dx)];
      p := p + [Vertical(dy)];
    } else {
      p := p + [Vertical(dy)];
      p := p + [Horizontal(dx)];
    }
  }

  /** `rounded_rect`: builds the path command by command, starting at (x + r, y). */
  method RoundedRect(x: real, y: real, w: real, h: real, s: StrokeSettings) returns (path: seq<Segment>)
    ensures path == RectPath(x, y, w, h, s)
  {
    var r := s.cornerRadius;
    path := [MoveTo(x + r, y)];
    path := AppendSide(path, Horizontal(w - 2.0 * r), s.topRight, s.topRightInward, r, r, r, true);
    assert path == [MoveTo(x + r, y)] + TopSide(w, s);
    path := AppendSide(path, Vertical(h - 2.0 * r), s.bottomRight, s.bottomRightInward, r, -r, r, false);
    assert path == [MoveTo(x + r, y)] + TopSide(w, s) + RightSide(h, s);
    path := AppendSide(path, Horizontal(2.0 * r - w), s.bottomLeft, s.bottomLeftInward, r, -r, -r, true);
    assert path == [MoveTo(x + r, y)] + TopSide(w, s) + RightSide(h, s) + BottomSide(w, s);
    path := AppendSide(path, Vertical(2.0 * r - h), s.topLeft, s.topLeftInward, r, r, -r, false);
    assert path == [MoveTo(x + r, y)] + TopSide(w, s) + RightSide(h, s) + BottomSide(w, s) + LeftSide(h, s);
    path := path + [Close];
  }

  /**
   * The card's outline, drawn only while the background or the border is shown: a
   * rectangle inset by 5 on every side of the viewport (drawn at the origin with
   * size viewport - 10, then translated by (5, 5)).
   */
  function BackgroundPath(fill: FillSettings, s: StrokeSettings, viewportWidth: real, viewportHeight: real)
    : (p: Option<seq<Segment>>)
    ensures p.Some? <==> fill.show || s.show
    ensures p.Some? ==> p.value == RectPath(0.0, 0.0, viewportWidth - 10.0, viewportHeight - 10.0, s)
  {
    if fill.show || s.show then Some(RectPath(0.0, 0.0, viewportWidth - 10.0, viewportHeight - 10.0, s)) else None
  }

  /**
   * Whenever it is drawn, the card's outline starts at (r, 0) in its own frame and
   * comes back there.
   */
  lemma BackgroundOutlineCloses(fill: FillSettings, s: StrokeSettings, viewportWidth: real, viewportHeight: real)
    requires fill.show || s.show
    ensures var p := BackgroundPath(fill, s, viewportWidth, viewportHeight).value;
            p == [MoveTo(s.cornerRadius, 0.0)] + Outline(viewportWidth - 10.0, viewportHeight - 10.0, s) + [Close]
    ensures Displacement(Outline(viewportWidth - 10.0, viewportHeight - 10.0, s)) == Vec(0.0, 0.0)
  {
    RectPathFrame(0.0, 0.0, viewportWidth - 10.0, viewportHeight - 10.0, s);
    OutlineCloses(viewportWidth - 10.0, viewportHeight - 10.0, s);
  }

  /**
   * The stroke dash pattern: the custom pattern when set, else "8 , 4" for
   * dashed, "2 , 4" for dotted, none for solid or any other type.
   */
  function DashArray(s: StrokeSettings): (r: Option<string>)
    ensures Truthy(s.strokeArray) ==> r == s.strokeArray
    ensures !Truthy(s.strokeArray) && s.strokeType == "1" ==> r == Some("8 , 4")
    ensures !Truthy(s.strokeArray) && s.strokeType == "2" ==> r == Some("2 , 4")
    ensures r.None? <==> !Truthy(s.strokeArray) && s.strokeType != "1" && s.strokeType != "2"
  {
    if Truthy(s.strokeArray) then s.strokeArray
    else if s.strokeType == "1" then Some("8 , 4")
    else if s.strokeType == "2" then Some("2 , 4")
    else None
  }

  /** The default border is hidden, solid, with radius 15 and no rounded or inward corner. */
  lemma DefaultStrokeIsPlain()
    ensures !DefaultStroke.show && DefaultStroke.cornerRadius == 15.0 && DefaultStroke.strokeType == "0"
    ensures DashArray(DefaultStroke) == None
    ensures !DefaultStroke.topLeft && !DefaultStroke.topRight && !DefaultStroke.bottomLeft && !DefaultStroke.bottomRight
    ensures !DefaultStroke.topLeftInward && !DefaultStroke.topRightInward &&
            !DefaultStroke.bottomLeftInward && !DefaultStroke.bottomRightInward
  {
  }

  /**
   * The background fill: none when the fill is hidden; else the background colour
   * of the firing condition slot, else the configured colour, else none.
   */
  function BackgroundFill(fill: FillSettings, matched: Option<string>): (r: string)
    ensures !fill.show ==> r == "none"
    ensures fill.show && Truthy(matched) ==> r == matched.value
    ensures fill.show && !Truthy(matched) && Truthy(fill.backgroundColor) ==> r == fill.backgroundColor.value
    ensures fill.show && !Truthy(matched) && !Truthy(fill.backgroundColor) ==> r == "none"
    ensures r == "none" || (fill.show && (Some(r) == matched || Some(r) == fill.backgroundColor))
  {
    if fill.show then OrElse(matched, OrElse(fill.backgroundColor, "none")) else "none"
  }

  /** The border colour: the configured stroke colour, or none when it is null or empty. */
  function StrokeColor(s: StrokeSettings): (r: string)
    ensures Truthy(s.strokeColor) ==> r == s.strokeColor.value
    ensures !Truthy(s.strokeColor) ==> r == "none"
  {
    OrElse(s.strokeColor, "none")
  }
}
