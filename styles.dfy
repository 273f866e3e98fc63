/**
 * The style fields every shape shares, their setters (`Builder<T>`,
 * SVGDocument.h:60-93) and the snippet that writes them (`OUT_BUILDER`,
 * SVGDocument.h:10-18).
 */
module Styles {
  import opened Wrappers
  import opened Decimal
  import opened Colors
  import opened Attributes

  /**
   * Fill, stroke, stroke width (a double in the source, an integer here),
   * and the optional line cap and line join keywords.
   */
  datatype Style = Style(
    fill: Color,
    stroke: Color,
    strokeWidth: int,
    strokeLineCap: Option<string>,
    strokeLineJoin: Option<string>)

  /** What a freshly built shape carries. */
  const DefaultStyle: Style := Style(NoneColor, NoneColor, 1, None, None)

  /** Both colours can be written; the unset colour makes `operator<<` throw. */
  predicate Printable(s: Style)
  {
    !s.fill.Unset? && !s.stroke.Unset?
  }

  /** No value that is written between quotes holds a quote itself. */
  predicate QuoteFree(s: Style)
    requires Printable(s)
  {
    '"' !in ColorValue(s.fill) && '"' !in ColorValue(s.stroke) &&
    (s.strokeLineCap.Some? ==> '"' !in s.strokeLineCap.value)
  }

  /**
   * `OUT_BUILDER`: fill, stroke and stroke-width always, then the line cap
   * and the line join only when set. The line join is written as the code
   * writes it, with no `=` after its name.
   */
  function StyleAttributes(s: Style): string
    requires Printable(s)
  {
    ("fill=" + FormatColor(s.fill) + " ")
    + ("stroke=" + FormatColor(s.stroke) + " ")
    + ("stroke-width=" + "\"" + IntToStr(s.strokeWidth) + "\"" + " ")
    + (if s.strokeLineCap.Some? then "stroke-linecap=" + "\"" + s.strokeLineCap.value + "\"" + " " else "")
    + (if s.strokeLineJoin.Some? then "stroke-linejoin" + "\"" + s.strokeLineJoin.value + "\"" + " " else "")
  }

  /** The attributes of a style in the order they are written, the line join aside. */
  function StyleAttrs(s: Style): seq<Attr>
    requires Printable(s)
  {
    [Attr("fill", ColorValue(s.fill)), Attr("stroke", ColorValue(s.stroke)),
     Attr("stroke-width", IntToStr(s.strokeWidth))]
    + (if s.strokeLineCap.Some? then [Attr("stroke-linecap", s.strokeLineCap.value)] else [])
  }

  /** The text written for the line join: nothing when unset. */
  function LineJoinText(join: Option<string>): string
  {
    if join.Some? then "stroke-linejoin\"" + join.value + "\" " else ""
  }

  /** A colour attribute is written exactly as the attribute syntax writes its value. */
  lemma ColorAttribute(name: string, c: Color)
    requires !c.Unset?
    ensures name + "=" + FormatColor(c) + " " == AttrText(Attr(name, ColorValue(c)))
  {
    FormatColorQuotes(c);
    var v := ColorValue(c);
    Regroup(name, "=", "\"", v, " ");
    assert "=" + "\"" == "=\"" && "\"" + " " == "\" ";
  }

  /** Moves the quotes of a quoted value next to the text around it. */
  lemma Regroup(x: string, e: string, q: string, v: string, sp: string)
    ensures x + e + (q + v + q) + sp == x + (e + q) + v + (q + sp)
  {
  }

  lemma FillAttribute(c: Color)
    requires !c.Unset?
    ensures "fill=" + FormatColor(c) + " " == AttrText(Attr("fill", ColorValue(c)))
  {
    assert "fill=" == "fill" + "=";
    ColorAttribute("fill", c);
  }

  lemma StrokeAttribute(c: Color)
    requires !c.Unset?
    ensures "stroke=" + FormatColor(c) + " " == AttrText(Attr("stroke", ColorValue(c)))
  {
    assert "stroke=" == "stroke" + "=";
    ColorAttribute("stroke", c);
  }

  /** The stroke width is written as one quoted attribute. */
  lemma WidthAttribute(w: int)
    ensures "stroke-width=" + "\"" + IntToStr(w) + "\"" + " " == AttrText(Attr("stroke-width", IntToStr(w)))
  {
    assert "stroke-width=" == "stroke-width" + "=";
  }

  /** The line cap is one quoted attribute when set, and nothing otherwise. */
  lemma CapAttribute(cap: Option<string>)
    ensures (if cap.Some? then "stroke-linecap=" + "\"" + cap.value + "\"" + " " else "")
      == AttrsText(if cap.Some? then [Attr("stroke-linecap", cap.value)] else [])
  {
    if cap.Some? {
      assert "stroke-linecap=" == "stroke-linecap" + "=";
      assert [Attr("stroke-linecap", cap.value)][1..] == [];
    }
  }

  /** The line join part of `OUT_BUILDER` is `LineJoinText`. */
  lemma JoinPart(join: Option<string>)
    ensures (if join.Some? then "stroke-linejoin" + "\"" + join.value + "\"" + " " else "") == LineJoinText(join)
  {
  }

  /** Three attributes, an optional fourth, and trailing text, joined. */
  lemma JoinStyle(a: Attr, b: Attr, c: Attr, cap: seq<Attr>, join: string)
    ensures AttrText(a) + AttrText(b) + AttrText(c) + AttrsText(cap) + join == AttrsText([a, b, c] + cap) + join
  {
    AttrsText3(a, b, c);
    AttrsTextAppend([a, b, c], cap);
  }

  /**
   * The style text is the attribute list `StyleAttrs` in its fixed order,
   * followed by the line join text; unset options contribute nothing.
   */
  lemma StyleAsAttributes(s: Style)
    requires Printable(s)
    ensures StyleAttributes(s) == AttrsText(StyleAttrs(s)) + LineJoinText(s.strokeLineJoin)
  {
    FillAttribute(s.fill);
    StrokeAttribute(s.stroke);
    WidthAttribute(s.strokeWidth);
    CapAttribute(s.strokeLineCap);
    JoinPart(s.strokeLineJoin);
    JoinStyle(Attr("fill", ColorValue(s.fill)), Attr("stroke", ColorValue(s.stroke)),
      Attr("stroke-width", IntToStr(s.strokeWidth)),
      if s.strokeLineCap.Some? then [Attr("stroke-linecap", s.strokeLineCap.value)] else [],
      LineJoinText(s.strokeLineJoin));
  }

  lemma AttrsText3(a: Attr, b: Attr, c: Attr)
    ensures AttrsText([a, b, c]) == AttrText(a) + AttrText(b) + AttrText(c)
  {
    assert AttrsText([c]) == AttrText(c) by { assert [c][1..] == []; }
    assert AttrsText([b, c]) == AttrText(b) + AttrsText([c]) by { assert [b, c][1..] == [c]; }
    assert AttrsText([a, b, c]) == AttrText(a) + AttrsText([b, c]) by { assert [a, b, c][1..] == [b, c]; }
  }

  /** Which attributes a style writes, in order: the line cap appears exactly when it is set. */
  lemma StyleNames(s: Style)
    requires Printable(s)
    ensures Names(StyleAttrs(s)) ==
      ["fill", "stroke", "stroke-width"] + (if s.strokeLineCap.Some? then ["stroke-linecap"] else [])
  {
  }

  /** The names and values `StyleAttrs` produces fit the quoted attribute syntax. */
  lemma StyleAttrsWellFormed(s: Style)
    requires Printable(s) && QuoteFree(s)
    ensures AllWellFormed(StyleAttrs(s))
  {
    IntToStrPlain(s.strokeWidth);
    assert '=' !in "fill" && '"' !in "fill";
    assert '=' !in "stroke" && '"' !in "stroke";
    assert '=' !in "stroke-width" && '"' !in "stroke-width";
    assert '=' !in "stroke-linecap" && '"' !in "stroke-linecap";
  }

  /** Whatever the value, the line join text is not attribute syntax. */
  lemma LineJoinNotAttribute(v: string)
    ensures ParseAttrs(LineJoinText(Some(v))) == None
  {
    var t := LineJoinText(Some(v));
    assert t[15] == '"';
    match IndexOf(t, '=')
    case None =>
    case Some(i) =>
      assert forall k :: 0 <= k < 16 ==> t[k] == "stroke-linejoin\""[k];
      assert t[..i][15] == '"';
  }

  /**
   * A quote-free style is well-formed attribute syntax exactly when no line
   * join is set, and then it reads back as `StyleAttrs` in order.
   */
  lemma StyleParsesIff(s: Style)
    requires Printable(s) && QuoteFree(s)
    ensures ParseAttrs(StyleAttributes(s)) ==
      if s.strokeLineJoin.None? then Some(StyleAttrs(s)) else None
  {
    StyleAsAttributes(s);
    StyleAttrsWellFormed(s);
    ParseAttrsAppend(StyleAttrs(s), LineJoinText(s.strokeLineJoin));
    if s.strokeLineJoin.Some? {
      LineJoinNotAttribute(s.strokeLineJoin.value);
    } else {
      assert StyleAttrs(s) + [] == StyleAttrs(s);
    }
  }

  /**
   * The style fields of one shape and their five setters. Each setter
   * changes its own field and no other, and returns the object it was
   * called on.
   */
  class Builder {
    var fill: Color
    var stroke: Color
    var strokeWidth: int
    var strokeLineCap: Option<string>
    var strokeLineJoin: Option<string>

    function Current(): Style
      reads this
    {
      Style(fill, stroke, strokeWidth, strokeLineCap, strokeLineJoin)
    }

    constructor ()
      ensures Current() == DefaultStyle
    {
      fill, stroke, strokeWidth := NoneColor, NoneColor, 1;
      strokeLineCap, strokeLineJoin := None, None;
    }

    method SetFillColor(f: Color) returns (self: Builder)
      modifies this
      ensures self == this
      ensures Current() == old(Current()).(fill := f)
    {
      fill := f;
      self := this;
    }

    method SetStrokeColor(s: Color) returns (self: Builder)
      modifies this
      ensures self == this
      ensures Current() == old(Current()).(stroke := s)
    {
      stroke := s;
      self := this;
    }

    method SetStrokeWidth(sw: int) returns (self: Builder)
      modifies this
      ensures self == this
      ensures Current() == old(Current()).(strokeWidth := sw)
    {
      strokeWidth := sw;
      self := this;
    }

    method SetStrokeLineCap(linecap: string) returns (self: Builder)
      modifies this
      ensures self == this
      ensures Current() == old(Current()).(strokeLineCap := Some(linecap))
    {
      strokeLineCap := Some(linecap);
      self := this;
    }

    method SetStrokeLineJoin(linejoin: string) returns (self: Builder)
      modifies this
      ensures self == this
      ensures Current() == old(Current()).(strokeLineJoin := Some(linejoin))
    {
      strokeLineJoin := Some(linejoin);
      self := this;
    }
  }
}
