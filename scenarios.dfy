/**
 * Concrete outputs: the attributes written, in order, and the closing
 * syntax for one shape of each kind.
 */
module Scenarios {
  import opened Wrappers
  import opened Decimal
  import opened Attributes
  import opened Styles
  import opened Shapes

  /** The three style attributes every shape with the default style writes. */
  const DefaultStyleAttrs: seq<Attr> :=
    [Attr("fill", "none"), Attr("stroke", "none"), Attr("stroke-width", "1")]

  /** The attributes the default style writes. */
  lemma DefaultStyleWrites()
    ensures StyleAttrs(DefaultStyle) == DefaultStyleAttrs
  {
    assert IntToStr(1) == "1";
  }

  /** The decimal text of the two-digit numbers used below. */
  lemma TwoDigitNumbers()
    ensures IntToStr(10) == "10" && IntToStr(12) == "12"
  {
    assert NatToStr(10) == NatToStr(1) + [DigitChar(0)];
    assert NatToStr(12) == NatToStr(1) + [DigitChar(2)];
  }

  /** A default circle moved to (5, 10) with radius 3. */
  lemma CircleText()
    ensures Body(Circle(Point(5, 10), 3, DefaultStyle)) ==
      AttrsText([Attr("cx", "5"), Attr("cy", "10"), Attr("r", "3")] + DefaultStyleAttrs) + "/>"
  {
    var c := Circle(Point(5, 10), 3, DefaultStyle);
    CircleAsAttributes(c);
    DefaultStyleWrites();
    TwoDigitNumbers();
    assert GeometryAttrs(c) == [Attr("cx", "5"), Attr("cy", "10"), Attr("r", "3")];
  }

  /** A polyline without vertices writes an empty `points` value. */
  lemma EmptyPolylineText()
    ensures Body(DefaultPolyline) == AttrsText([Attr("points", "")] + DefaultStyleAttrs) + "/>"
  {
    PolylineAsAttributes(DefaultPolyline);
    DefaultStyleWrites();
  }

  /** Text "hi" at font size 12 with a family: the family follows the size, the data closes the element. */
  lemma TextWithFamily()
    ensures Body(Text(Origin, Origin, 12, Some("Verdana"), "hi", DefaultStyle)) ==
      AttrsText([Attr("x", "0"), Attr("y", "0"), Attr("dx", "0"), Attr("dy", "0"),
                 Attr("font-size", "12"), Attr("font-family", "Verdana")] + DefaultStyleAttrs)
      + ">hi</text>"
  {
    var t := Text(Origin, Origin, 12, Some("Verdana"), "hi", DefaultStyle);
    TextAsAttributes(t);
    DefaultStyleWrites();
    TwoDigitNumbers();
    assert GeometryAttrs(t) == [Attr("x", "0"), Attr("y", "0"), Attr("dx", "0"), Attr("dy", "0"),
      Attr("font-size", "12"), Attr("font-family", "Verdana")];
  }

  /** Three vertices are written in insertion order, each as `x,y ` with its trailing space. */
  lemma PolylinePointsText()
    ensures PointsText([Point(0, 0), Point(1, 1), Point(2, 0)]) == "0,0 1,1 2,0 "
  {
  }

  /** The polyline through those three vertices, with the default style. */
  lemma PolylineText()
    ensures Body(Polyline([Point(0, 0), Point(1, 1), Point(2, 0)], DefaultStyle)) ==
      AttrsText([Attr("points", "0,0 1,1 2,0 ")] + DefaultStyleAttrs) + "/>"
  {
    var p := Polyline([Point(0, 0), Point(1, 1), Point(2, 0)], DefaultStyle);
    PolylineAsAttributes(p);
    DefaultStyleWrites();
    PolylinePointsText();
  }

  /** Text without a family: font-size is followed directly by the style attributes. */
  lemma TextWithoutFamily()
    ensures Body(Text(Point(1, 2), Origin, 12, None, "hi", DefaultStyle)) ==
      AttrsText([Attr("x", "1"), Attr("y", "2"), Attr("dx", "0"), Attr("dy", "0"),
                 Attr("font-size", "12")] + DefaultStyleAttrs)
      + ">hi</text>"
  {
    var t := Text(Point(1, 2), Origin, 12, None, "hi", DefaultStyle);
    TextAsAttributes(t);
    DefaultStyleWrites();
    TwoDigitNumbers();
    assert GeometryAttrs(t) == [Attr("x", "1"), Attr("y", "2"), Attr("dx", "0"), Attr("dy", "0"),
      Attr("font-size", "12")];
  }

  /** No `font-family` attribute is written for a text without a family. */
  lemma TextWithoutFamilyNames()
    ensures "font-family" !in Names(ShapeAttrs(Text(Point(1, 2), Origin, 12, None, "hi", DefaultStyle)))
  {
    TextAttributeNames(Text(Point(1, 2), Origin, 12, None, "hi", DefaultStyle));
  }

  /** A circle with the line cap set to "round" writes it after stroke-width; unset, it is absent. */
  lemma CircleLineCap()
    ensures ShapeAttrs(Circle(Origin, 1, DefaultStyle.(strokeLineCap := Some("round")))) ==
      [Attr("cx", "0"), Attr("cy", "0"), Attr("r", "1")] + DefaultStyleAttrs + [Attr("stroke-linecap", "round")]
    ensures "stroke-linecap" !in Names(ShapeAttrs(DefaultCircle))
  {
    var names := Names(ShapeAttrs(DefaultCircle));
    assert names == ["cx", "cy", "r", "fill", "stroke", "stroke-width"];
  }
}
