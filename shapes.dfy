/**
 * The three shapes as the values a document stores: `Circle`, `Polyline`
 * and `Text` (SVGDocument.h:95-192), their tags (`NameFigure`) and their
 * `operator<<`, which writes the attribute body and the closing syntax.
 */
module Shapes {
  import opened Wrappers
  import opened Decimal
  import opened Colors
  import opened Attributes
  import opened Styles

  /** Coordinates are doubles in the source; integers stand for them here. */
  datatype Point = Point(x: int, y: int)

  type uint32 = n: int | 0 <= n < 0x1_0000_0000

  datatype Shape =
    | Circle(center: Point, radius: int, style: Style)
    | Polyline(vertices: seq<Point>, style: Style)
    | Text(point: Point, offset: Point, fontSize: uint32, fontFamily: Option<string>, data: string, style: Style)

  const Origin: Point := Point(0, 0)

  /** Field defaults of a freshly constructed shape. */
  const DefaultCircle: Shape := Circle(Origin, 1, DefaultStyle)
  const DefaultPolyline: Shape := Polyline([], DefaultStyle)
  const DefaultText: Shape := Text(Origin, Origin, 1, None, "", DefaultStyle)

  /** `NameFigure`: the element name of each shape. */
  function Name(s: Shape): string
  {
    match s
    case Circle(_, _, _) => "circle"
    case Polyline(_, _) => "polyline"
    case Text(_, _, _, _, _, _) => "text"
  }

  /** `operator<<(ostream&, const Circle&)` */
  function CircleBody(c: Shape): string
    requires c.Circle? && Printable(c.style)
  {
    CircleGeometry(c) + StyleAttributes(c.style) + "/>"
  }

  /** The circle's own attributes: centre and radius. */
  function CircleGeometry(c: Shape): string
    requires c.Circle?
  {
    ("cx=" + "\"" + IntToStr(c.center.x) + "\"" + " cy=" + "\"" + IntToStr(c.center.y) + "\"" + " ")
    + ("r=" + "\"" + IntToStr(c.radius) + "\"" + " ")
  }

  /** One vertex as the polyline writes it: `x,y `. */
  function PointText(p: Point): string
  {
    IntToStr(p.x) + "," + IntToStr(p.y) + " "
  }

  /** The vertices, in order, each as `x,y `. */
  function PointsText(vs: seq<Point>): string
  {
    if vs == [] then "" else PointText(vs[0]) + PointsText(vs[1..])
  }

  /** `operator<<(ostream&, const Polyline&)` */
  function PolylineBody(p: Shape): string
    requires p.Polyline? && Printable(p.style)
  {
    ("points=" + "\"")
    + PointsText(p.vertices)
    + ("\"" + " ")
    + StyleAttributes(p.style)
    + "/>"
  }

  /** `operator<<(ostream&, const Text&)`; the data is written unescaped. */
  function TextBody(t: Shape): string
    requires t.Text? && Printable(t.style)
  {
    TextGeometry(t) + StyleAttributes(t.style) + (">" + t.data + "</text>")
  }

  /** The text's own attributes: position, offset, font size and, when set, font family. */
  function TextGeometry(t: Shape): string
    requires t.Text?
  {
    ("x=" + "\"" + IntToStr(t.point.x) + "\"" + " y=" + "\"" + IntToStr(t.point.y) + "\"" + " ")
    + ("dx=" + "\"" + IntToStr(t.offset.x) + "\"" + " dy=" + "\"" + IntToStr(t.offset.y) + "\"" + " ")
    + ("font-size=" + "\"" + IntToStr(t.fontSize) + "\"" + " ")
    + (if t.fontFamily.Some? then "font-family=" + "\"" + t.fontFamily.value + "\"" + " " else "")
  }

  /** What follows `<name ` for each shape. */
  function Body(s: Shape): string
    requires Printable(s.style)
  {
    match s
    case Circle(_, _, _) => CircleBody(s)
    case Polyline(_, _) => PolylineBody(s)
    case Text(_, _, _, _, _, _) => TextBody(s)
  }

  // ---------------------------------------------------------------------
  // The attribute-list view of a shape

  /** The shape's own attributes, in the order they are written, before the style. */
  function GeometryAttrs(s: Shape): seq<Attr>
  {
    match s
    case Circle(c, r, _) =>
      [Attr("cx", IntToStr(c.x)), Attr("cy", IntToStr(c.y)), Attr("r", IntToStr(r))]
    case Polyline(vs, _) =>
      [Attr("points", PointsText(vs))]
    case Text(p, o, size, family, _, _) =>
      [Attr("x", IntToStr(p.x)), Attr("y", IntToStr(p.y)),
       Attr("dx", IntToStr(o.x)), Attr("dy", IntToStr(o.y)),
       Attr("font-size", IntToStr(size))]
      + (if family.Some? then [Attr("font-family", family.value)] else [])
  }

  /** Every attribute a shape writes, the line join aside. */
  function ShapeAttrs(s: Shape): seq<Attr>
    requires Printable(s.style)
  {
    GeometryAttrs(s) + StyleAttrs(s.style)
  }

  /** How the element ends: self-closing, or the text content and the end tag. */
  function Closing(s: Shape): string
  {
    if s.Text? then ">" + s.data + "</text>" else "/>"
  }

  /** No value written between quotes holds a quote. */
  predicate ShapeQuoteFree(s: Shape)
    requires Printable(s.style)
  {
    QuoteFree(s.style) && (s.Text? && s.fontFamily.Some? ==> '"' !in s.fontFamily.value)
  }

  lemma AttrsText2(a: Attr, b: Attr)
    ensures AttrsText([a, b]) == AttrText(a) + AttrText(b)
  {
    assert AttrsText([b]) == AttrText(b) by { assert [b][1..] == []; }
    assert [a, b][1..] == [b];
  }

  /** The source's spelling of two attributes in one write: `a="x" b="y" `. */
  lemma PairText(a: string, x: string, b: string, y: string)
    ensures (a + "=") + "\"" + x + "\"" + (" " + b + "=") + "\"" + y + "\"" + " "
      == AttrsText([Attr(a, x), Attr(b, y)])
  {
    AttrsText2(Attr(a, x), Attr(b, y));
  }

  lemma CircleGeometryText(x: string, y: string, r: string)
    ensures ("cx=" + "\"" + x + "\"" + " cy=" + "\"" + y + "\"" + " ") + ("r=" + "\"" + r + "\"" + " ")
      == AttrsText([Attr("cx", x), Attr("cy", y), Attr("r", r)])
  {
    assert "cx=" + "\"" + x + "\"" + " cy=" + "\"" + y + "\"" + " " == AttrsText([Attr("cx", x), Attr("cy", y)]) by {
      assert "cx=" == "cx" + "=" && " cy=" == " " + "cy" + "=";
      PairText("cx", x, "cy", y);
    }
    assert "r=" + "\"" + r + "\"" + " " == AttrsText([Attr("r", r)]) by {
      assert "r=" == "r" + "=";
      assert [Attr("r", r)][1..] == [];
    }
    AttrsTextAppend([Attr("cx", x), Attr("cy", y)], [Attr("r", r)]);
    assert [Attr("cx", x), Attr("cy", y)] + [Attr("r", r)] == [Attr("cx", x), Attr("cy", y), Attr("r", r)];
  }

  lemma CircleAsAttributes(c: Shape)
    requires c.Circle? && Printable(c.style)
    ensures CircleBody(c) == AttrsText(ShapeAttrs(c)) + LineJoinText(c.style.strokeLineJoin) + "/>"
  {
    CircleGeometryText(IntToStr(c.center.x), IntToStr(c.center.y), IntToStr(c.radius));
    StyleAsAttributes(c.style);
    JoinSections(GeometryAttrs(c), StyleAttrs(c.style), LineJoinText(c.style.strokeLineJoin), "/>");
  }

  /** The `points` attribute: the vertices between quotes. */
  lemma PointsAttribute(vs: seq<Point>)
    ensures ("points=" + "\"") + PointsText(vs) + ("\"" + " ") == AttrsText([Attr("points", PointsText(vs))])
  {
    assert "points=" == "points" + "=";
    assert [Attr("points", PointsText(vs))][1..] == [];
  }

  lemma PolylineAsAttributes(p: Shape)
    requires p.Polyline? && Printable(p.style)
    ensures PolylineBody(p) == AttrsText(ShapeAttrs(p)) + LineJoinText(p.style.strokeLineJoin) + "/>"
  {
    PointsAttribute(p.vertices);
    StyleAsAttributes(p.style);
    JoinSections(GeometryAttrs(p), StyleAttrs(p.style), LineJoinText(p.style.strokeLineJoin), "/>");
  }

  lemma FontText(size: string, family: Option<string>)
    ensures ("font-size=" + "\"" + size + "\"" + " ")
      + (if family.Some? then "font-family=" + "\"" + family.value + "\"" + " " else "")
      == AttrsText([Attr("font-size", size)] + (if family.Some? then [Attr("font-family", family.value)] else []))
  {
    var sz := [Attr("font-size", size)];
    var fam := if family.Some? then [Attr("font-family", family.value)] else [];
    assert "font-size=" + "\"" + size + "\"" + " " == AttrsText(sz) by {
      assert "font-size=" == "font-size" + "=";
      assert sz[1..] == [];
    }
    assert (if family.Some? then "font-family=" + "\"" + family.value + "\"" + " " else "") == AttrsText(fam) by {
      if family.Some? {
        assert "font-family=" == "font-family" + "=";
        assert fam[1..] == [];
      }
    }
    AttrsTextAppend(sz, fam);
  }

  lemma PositionText(x: string, y: string, dx: string, dy: string)
    ensures ("x=" + "\"" + x + "\"" + " y=" + "\"" + y + "\"" + " ")
      + ("dx=" + "\"" + dx + "\"" + " dy=" + "\"" + dy + "\"" + " ")
      == AttrsText([Attr("x", x), Attr("y", y), Attr("dx", dx), Attr("dy", dy)])
  {
    assert "x=" + "\"" + x + "\"" + " y=" + "\"" + y + "\"" + " " == AttrsText([Attr("x", x), Attr("y", y)]) by {
      assert "x=" == "x" + "=" && " y=" == " " + "y" + "=";
      PairText("x", x, "y", y);
    }
    assert "dx=" + "\"" + dx + "\"" + " dy=" + "\"" + dy + "\"" + " " == AttrsText([Attr("dx", dx), Attr("dy", dy)]) by {
      assert "dx=" == "dx" + "=" && " dy=" == " " + "dy" + "=";
      PairText("dx", dx, "dy", dy);
    }
    AttrsTextAppend([Attr("x", x), Attr("y", y)], [Attr("dx", dx), Attr("dy", dy)]);
    assert [Attr("x", x), Attr("y", y)] + [Attr("dx", dx), Attr("dy", dy)]
      == [Attr("x", x), Attr("y", y), Attr("dx", dx), Attr("dy", dy)];
  }

  lemma TextGeometryText(t: Shape)
    requires t.Text?
    ensures TextGeometry(t) == AttrsText(GeometryAttrs(t))
  {
    var x, y := IntToStr(t.point.x), IntToStr(t.point.y);
    var dx, dy := IntToStr(t.offset.x), IntToStr(t.offset.y);
    var g := GeometryAttrs(t);
    PositionText(x, y, dx, dy);
    assert g[..4] == [Attr("x", x), Attr("y", y), Attr("dx", dx), Attr("dy", dy)];
    FontText(IntToStr(t.fontSize), t.fontFamily);
    assert g[4..] == [Attr("font-size", IntToStr(t.fontSize))]
      + (if t.fontFamily.Some? then [Attr("font-family", t.fontFamily.value)] else []);
    assert g == g[..4] + g[4..];
    AttrsTextAppend(g[..4], g[4..]);
  }

  lemma TextAsAttributes(t: Shape)
    requires t.Text? && Printable(t.style)
    ensures TextBody(t) == AttrsText(ShapeAttrs(t)) + LineJoinText(t.style.strokeLineJoin) + Closing(t)
  {
    TextGeometryText(t);
    StyleAsAttributes(t.style);
    JoinSections(GeometryAttrs(t), StyleAttrs(t.style), LineJoinText(t.style.strokeLineJoin), Closing(t));
  }

  /**
   * Every shape's serialisation is its attribute list, in the fixed order
   * `ShapeAttrs` gives, then the line join text, then its closing syntax.
   */
  lemma BodyAsAttributes(s: Shape)
    requires Printable(s.style)
    ensures Body(s) == AttrsText(ShapeAttrs(s)) + LineJoinText(s.style.strokeLineJoin) + Closing(s)
  {
    match s
    case Circle(_, _, _) => CircleAsAttributes(s);
    case Polyline(_, _) => PolylineAsAttributes(s);
    case Text(_, _, _, _, _, _) => TextAsAttributes(s);
  }

  lemma {:induction false} PointsTextQuoteFree(vs: seq<Point>)
    ensures '"' !in PointsText(vs)
    decreases |vs|
  {
    if vs != [] {
      IntToStrPlain(vs[0].x);
      IntToStrPlain(vs[0].y);
      PointsTextQuoteFree(vs[1..]);
    }
  }

  lemma NumberAttrWellFormed(name: string, n: int)
    requires |name| > 0 && forall k :: 0 <= k < |name| ==> name[k] != '=' && name[k] != '"'
    ensures WellFormed(Attr(name, IntToStr(n)))
  {
    assert '=' !in name && '"' !in name;
    IntToStrPlain(n);
  }

  lemma TextGeometryWellFormed(t: Shape)
    requires t.Text? && (t.fontFamily.Some? ==> '"' !in t.fontFamily.value)
    ensures AllWellFormed(GeometryAttrs(t))
  {
    NumberAttrWellFormed("x", t.point.x);
    NumberAttrWellFormed("y", t.point.y);
    NumberAttrWellFormed("dx", t.offset.x);
    NumberAttrWellFormed("dy", t.offset.y);
    NumberAttrWellFormed("font-size", t.fontSize);
    if t.fontFamily.Some? {
      assert '=' !in "font-family" && '"' !in "font-family";
    }
  }

  lemma GeometryAttrsWellFormed(s: Shape)
    requires s.Text? && s.fontFamily.Some? ==> '"' !in s.fontFamily.value
    ensures AllWellFormed(GeometryAttrs(s))
  {
    match s
    case Circle(c, r, _) =>
      NumberAttrWellFormed("cx", c.x);
      NumberAttrWellFormed("cy", c.y);
      NumberAttrWellFormed("r", r);
    case Polyline(vs, _) =>
      PointsTextQuoteFree(vs);
      assert '=' !in "points" && '"' !in "points";
    case Text(_, _, _, _, _, _) =>
      TextGeometryWellFormed(s);
  }

  /**
   * The attribute section of a quote-free shape is well-formed attribute
   * syntax exactly when no line join is set, and then it reads back as the
   * shape's attributes in their fixed order.
   */
  lemma BodyParsesIff(s: Shape)
    requires Printable(s.style) && ShapeQuoteFree(s)
    ensures ParseAttrs(AttrsText(ShapeAttrs(s)) + LineJoinText(s.style.strokeLineJoin)) ==
      if s.style.strokeLineJoin.None? then Some(ShapeAttrs(s)) else None
  {
    GeometryAttrsWellFormed(s);
    StyleAttrsWellFormed(s.style);
    var attrs := ShapeAttrs(s);
    assert AllWellFormed(attrs) by {
      var g := GeometryAttrs(s);
      forall i | 0 <= i < |attrs| ensures WellFormed(attrs[i]) {
        if i >= |g| {
          assert attrs[i] == StyleAttrs(s.style)[i - |g|];
        }
      }
    }
    ParseAttrsAppend(attrs, LineJoinText(s.style.strokeLineJoin));
    if s.style.strokeLineJoin.Some? {
      LineJoinNotAttribute(s.style.strokeLineJoin.value);
    } else {
      assert attrs + [] == attrs;
    }
  }

  /**
   * The attributes a text element writes, by name: `font-family` exactly when
   * a family is set, between `font-size` and the style attributes.
   */
  lemma TextAttributeNames(t: Shape)
    requires t.Text? && Printable(t.style)
    ensures Names(ShapeAttrs(t)) ==
      ["x", "y", "dx", "dy", "font-size"]
      + (if t.fontFamily.Some? then ["font-family"] else [])
      + ["fill", "stroke", "stroke-width"]
      + (if t.style.strokeLineCap.Some? then ["stroke-linecap"] else [])
  {
  }

  // ---------------------------------------------------------------------
  // The points of a polyline

  lemma {:induction false} PointsTextAppend(a: seq<Point>, b: seq<Point>)
    ensures PointsText(a + b) == PointsText(a) + PointsText(b)
    decreases |a|
  {
    if a == [] {
      assert a + b == b;
    } else {
      assert (a + b)[0] == a[0] && (a + b)[1..] == a[1..] + b;
      PointsTextAppend(a[1..], b);
    }
  }

  /** Reads `x,y ` pairs until the text runs out. */
  function ParsePoints(t: string): Option<seq<Point>>
    decreases |t|
  {
    if t == [] then Some([])
    else
      match IndexOf(t, ',')
      case None => None
      case Some(i) =>
        var rest := t[i + 1..];
        match IndexOf(rest, ' ')
        case None => None
        case Some(j) =>
          match (ParseInt(t[..i]), ParseInt(rest[..j]), ParsePoints(rest[j + 1..]))
          case (Some(x), Some(y), Some(more)) => Some([Point(x, y)] + more)
          case _ => None
  }

  /** A pair `x,y ` whose parts hold no separator is read as those two parts, then the rest. */
  lemma ParsePointsCons(x: string, y: string, tail: string)
    requires |x| > 0 && ',' !in x && ' ' !in y
    ensures ParsePoints(x + [','] + (y + [' '] + tail)) ==
      match (ParseInt(x), ParseInt(y), ParsePoints(tail))
      case (Some(a), Some(b), Some(more)) => Some([Point(a, b)] + more)
      case _ => None
  {
    var t := x + [','] + (y + [' '] + tail);
    IndexOfAfter(x, ',', y + [' '] + tail);
    assert t[..|x|] == x;
    var rest := t[|x| + 1..];
    assert rest == y + [' '] + tail;
    IndexOfAfter(y, ' ', tail);
    assert rest[..|y|] == y;
    assert rest[|y| + 1..] == tail;
  }

  lemma ParsePointText(p: Point, tail: string, more: seq<Point>)
    requires ParsePoints(tail) == Some(more)
    ensures ParsePoints(PointText(p) + tail) == Some([p] + more)
  {
    var x, y := IntToStr(p.x), IntToStr(p.y);
    IntToStrPlain(p.x);
    IntToStrPlain(p.y);
    assert PointText(p) + tail == x + [','] + (y + [' '] + tail);
    ParsePointsCons(x, y, tail);
    IntToStrRoundTrip(p.x);
    IntToStrRoundTrip(p.y);
  }

  /** The `points` value lists every vertex, in insertion order: it reads back to the vertex list. */
  lemma {:induction false} PointsRoundTrip(vs: seq<Point>)
    ensures ParsePoints(PointsText(vs)) == Some(vs)
    decreases |vs|
  {
    if vs != [] {
      PointsRoundTrip(vs[1..]);
      ParsePointText(vs[0], PointsText(vs[1..]), vs[1..]);
      assert [vs[0]] + vs[1..] == vs;
    }
  }

  /** One more vertex adds its `x,y ` after those of the vertices before it. */
  lemma PointsTextStep(vs: seq<Point>, i: nat)
    requires i < |vs|
    ensures PointsText(vs[..i + 1]) == PointsText(vs[..i]) + PointText(vs[i])
  {
    assert PointsText([vs[i]]) == PointText(vs[i]) by { assert [vs[i]][1..] == []; }
    PointsTextAppend(vs[..i], [vs[i]]);
    assert vs[..i + 1] == vs[..i] + [vs[i]];
  }

  /** The loop of `operator<<(ostream&, const Polyline&)` over the vertices. */
  method WritePoints(vs: seq<Point>) returns (out: string)
    ensures out == PointsText(vs)
  {
    out := "";
    for i := 0 to |vs|
      invariant out == PointsText(vs[..i])
    {
      PointsTextStep(vs, i);
      out := out + PointText(vs[i]);
    }
    assert vs[..|vs|] == vs;
  }

  /** Writes the body of any shape, the polyline's vertices one at a time. */
  method WriteBody(s: Shape) returns (body: string)
    requires Printable(s.style)
    ensures body == Body(s)
  {
    match s {
      case Circle(_, _, _) =>
        body := CircleBody(s);
      case Polyline(vs, st) =>
        var points := WritePoints(vs);
        body := ("points=" + "\"") + points + ("\"" + " ") + StyleAttributes(st) + "/>";
      case Text(_, _, _, _, _, _) =>
        body := TextBody(s);
    }
  }
}
