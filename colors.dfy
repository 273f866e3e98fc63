/**
 * `Rgb`, `Color` and their `operator<<` (SVGDocument.h:28-50).
 * A colour is written as its own quoted attribute value.
 */
module Colors {
  import opened Wrappers
  import opened Decimal

  /** Three `int` components; nothing clamps them to 0..255. */
  datatype Rgb = Rgb(red: int, green: int, blue: int)

  /** `std::variant<std::monostate, std::string, Rgb>` */
  datatype Color = Unset | Named(name: string) | RgbColor(rgb: Rgb)

  /** The default of every colour field: the string "none". */
  const NoneColor: Color := Named("none")

  /** `operator<<(ostream&, const Rgb&)` */
  function FormatRgb(c: Rgb): string
  {
    "\"" + "rgb(" + IntToStr(c.red) + "," + IntToStr(c.green) + "," + IntToStr(c.blue) + ")" + "\""
  }

  /**
   * `operator<<(ostream&, const Color&)`. Any colour that is not an `Rgb` is
   * read with `std::get<std::string>`, which throws for the unset form, so the
   * unset form is excluded here.
   */
  function FormatColor(c: Color): string
    requires !c.Unset?
  {
    if !c.RgbColor? then "\"" + c.name + "\"" else FormatRgb(c.rgb)
  }

  /** The text between the quotes that `FormatColor` writes. */
  function ColorValue(c: Color): string
    requires !c.Unset?
  {
    match c
    case Named(s) => s
    case RgbColor(rgb) => "rgb(" + IntToStr(rgb.red) + "," + IntToStr(rgb.green) + "," + IntToStr(rgb.blue) + ")"
  }

  /** Every formatted colour is one quoted value: a named colour verbatim, an `Rgb` as `rgb(R,G,B)`. */
  lemma FormatColorQuotes(c: Color)
    requires !c.Unset?
    ensures FormatColor(c) == "\"" + ColorValue(c) + "\""
    ensures c.Named? ==> ColorValue(c) == c.name
  {
    match c
    case Named(name) =>
      assert FormatColor(c) == "\"" + name + "\"";
    case RgbColor(rgb) =>
      assert FormatColor(c) == FormatRgb(rgb);
  }

  /** Reads `rgb(R,G,B)` with three decimal integers. */
  function ParseRgb(v: string): Option<Rgb>
  {
    if |v| < 5 || v[..4] != "rgb(" || v[|v| - 1] != ')' then None
    else ParseComponents(v[4..|v| - 1])
  }

  /** Reads `R,G,B`. */
  function ParseComponents(inner: string): Option<Rgb>
  {
    match IndexOf(inner, ',')
    case None => None
    case Some(i) =>
      var rest := inner[i + 1..];
      match IndexOf(rest, ',')
      case None => None
      case Some(j) =>
        match (ParseInt(inner[..i]), ParseInt(rest[..j]), ParseInt(rest[j + 1..]))
        case (Some(r), Some(g), Some(b)) => Some(Rgb(r, g, b))
        case _ => None
  }

  /** Three parts whose first two hold no comma are read as those three parts. */
  lemma ParseComponentsSplit(r: string, g: string, b: string)
    requires ',' !in r && ',' !in g
    ensures ParseComponents(r + [','] + (g + [','] + b)) ==
      match (ParseInt(r), ParseInt(g), ParseInt(b))
      case (Some(x), Some(y), Some(z)) => Some(Rgb(x, y, z))
      case _ => None
  {
    var inner := r + [','] + (g + [','] + b);
    IndexOfAfter(r, ',', g + [','] + b);
    assert inner[..|r|] == r;
    var rest := inner[|r| + 1..];
    assert rest == g + [','] + b;
    IndexOfAfter(g, ',', b);
    assert rest[..|g|] == g;
    assert rest[|g| + 1..] == b;
  }

  lemma ComponentsRoundTrip(c: Rgb)
    ensures ParseComponents(IntToStr(c.red) + "," + IntToStr(c.green) + "," + IntToStr(c.blue)) == Some(c)
  {
    var r, g, b := IntToStr(c.red), IntToStr(c.green), IntToStr(c.blue);
    IntToStrPlain(c.red);
    IntToStrPlain(c.green);
    assert r + "," + g + "," + b == r + [','] + (g + [','] + b);
    ParseComponentsSplit(r, g, b);
    IntToStrRoundTrip(c.red);
    IntToStrRoundTrip(c.green);
    IntToStrRoundTrip(c.blue);
  }

  /** The `rgb(R,G,B)` text of an `Rgb` colour reads back to the same three components. */
  lemma RgbRoundTrip(c: Rgb)
    ensures ParseRgb(ColorValue(RgbColor(c))) == Some(c)
  {
    var inner := IntToStr(c.red) + "," + IntToStr(c.green) + "," + IntToStr(c.blue);
    var v := ColorValue(RgbColor(c));
    assert v == "rgb(" + inner + ")";
    assert v[..4] == "rgb(";
    assert v[4..|v| - 1] == inner;
    ComponentsRoundTrip(c);
  }

  /** Distinct `Rgb` colours are written differently. */
  lemma FormatRgbInjective(c: Rgb, d: Rgb)
    requires FormatColor(RgbColor(c)) == FormatColor(RgbColor(d))
    ensures c == d
  {
    FormatColorQuotes(RgbColor(c));
    FormatColorQuotes(RgbColor(d));
    var u, w := ColorValue(RgbColor(c)), ColorValue(RgbColor(d));
    assert u == FormatColor(RgbColor(c))[1..|FormatColor(RgbColor(c))| - 1];
    assert w == FormatColor(RgbColor(d))[1..|FormatColor(RgbColor(d))| - 1];
    RgbRoundTrip(c);
    RgbRoundTrip(d);
  }

  /**
   * Nothing in the written text tells a named colour from an `Rgb` one: the
   * name "rgb(1,2,3)" is written exactly as the triple (1, 2, 3).
   */
  lemma NamedMimicsRgb()
    ensures FormatColor(Named("rgb(1,2,3)")) == FormatColor(RgbColor(Rgb(1, 2, 3)))
  {
  }
}
