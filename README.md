# SVG document builder and serialiser

A model of `SVGDocument.h`. That header is an in-memory builder for SVG
markup plus a text serialiser, and it has five parts:

- **Colours** (`Colors`). A colour is unset, a named string, or an `Rgb`
  triple. It is written as one quoted value: `"name"` or `"rgb(R,G,B)"`.
  `NoneColor` is the named colour `"none"`.
- **Style fields** (`Styles`). These are fill, stroke, stroke width, and an
  optional line cap and line join. `Styles.Builder` is the object whose five
  setters change them in place. `StyleAttributes` is the text the
  `OUT_BUILDER` snippet writes for them.
- **Shapes** (`Shapes`, `Builders`). `Shapes.Shape` is the value a document
  stores: a circle, a polyline or a text. Its `Body` is what the shape's
  `operator<<` writes. The classes in `Builders` are the objects a caller
  builds, with in-place chaining setters; `Value()` is the copy a document
  takes.
- **Document** (`Svg`). `Svg.Document` holds the stored shapes in order.
  `Add` appends one. `Render` writes the XML prologue, then `<name ` and
  the body of each shape in insertion order, then `</svg>`.
- **Decimal text** (`Decimal`). `IntToStr` writes integers the way a stream
  writes an `int`. `ParseInt` reads them back.

The model reproduces the code's output, including where it departs from
SVG 1.1. The line join is written as `stroke-linejoin"round" `, with no `=`
after the name. `Styles.StyleParsesIff` and `Shapes.BodyParsesIff` prove
what this costs. Take a shape whose named colours, line cap and font family
hold no `"` of their own. Its attribute section reads back as well-formed
`name="value" ` syntax exactly when no line join is set.

The proofs relate every writer to a partner:

- a reader that inverts it (`ParseInt`, `ParseRgb`, `ParsePoints`,
  `ParseAttrs`);
- or a reference definition. The main one is the attribute list
  (`StyleAttrs`, `ShapeAttrs`): the exact sequence of `name="value"` pairs
  a shape writes, in its fixed order.

## Model

| member | source | states |
|---|---|---|
| Decimal.IntToStr | SVGDocument.h:37 | the decimal text of an integer is non-empty, starts with `-` exactly when the value is negative, has no leading zero (zero is written `0`), and is digits otherwise |
| Decimal.IntToStrRoundTrip | SVGDocument.h:37 | the decimal text of any integer reads back to that integer |
| Decimal.IntToStrInjective | SVGDocument.h:37 | distinct integers are written as distinct texts |
| Decimal.IntToStrPlain | SVGDocument.h:140 | a written number holds no quote, comma, space or `=`, so it cannot break the syntax it is embedded in |
| Colors.FormatRgb | SVGDocument.h:36-39 | writes `"rgb(R,G,B)"`; `Colors.FormatColorQuotes` states it is the quoted `rgb(R,G,B)` value and `Colors.RgbRoundTrip` that the triple reads back from it |
| Colors.FormatColor | SVGDocument.h:42-50 | writes a named colour quoted and an Rgb through `FormatRgb`, and is defined only for a set colour; `Colors.FormatColorQuotes` states the result |
| Colors.FormatColorQuotes | SVGDocument.h:42-50 | a non-unset colour is written as `"` + its value + `"`; a named colour's value is the string verbatim, an Rgb's is `rgb(R,G,B)` |
| Colors.ComponentsRoundTrip | SVGDocument.h:37 | the `R,G,B` text reads back to the same three components, whatever their sign or size (no clamping) |
| Colors.RgbRoundTrip | SVGDocument.h:36-39 | the `rgb(R,G,B)` value of an Rgb colour reads back to the same triple |
| Colors.FormatRgbInjective | SVGDocument.h:36-39 | two Rgb colours that are written the same are equal |
| Colors.NamedMimicsRgb | SVGDocument.h:43-48 | the named colour `rgb(1,2,3)` is written exactly like the triple (1, 2, 3): the output does not tell the two forms apart |
| Styles.StyleAttributes | SVGDocument.h:10-18 | the text `OUT_BUILDER` writes; `Styles.StyleAsAttributes` states it as the style's attribute list plus the line join text |
| Styles.FillAttribute | SVGDocument.h:10 | the fill is written as one attribute `fill="value" ` |
| Styles.StrokeAttribute | SVGDocument.h:11 | the stroke is written as one attribute `stroke="value" ` |
| Styles.WidthAttribute | SVGDocument.h:12 | the stroke width is written as one attribute `stroke-width="w" ` |
| Styles.CapAttribute | SVGDocument.h:13-15 | the line cap is one attribute `stroke-linecap="v" ` when set, and nothing when unset |
| Styles.JoinPart | SVGDocument.h:16-18 | the line join is written as `stroke-linejoin"v" ` when set, with no `=`, and nothing when unset |
| Styles.StyleAsAttributes | SVGDocument.h:10-18 | the style text is fill, stroke, stroke-width in that order, then the line cap only if set, each as `name="value" `, then the line join text (empty when unset) |
| Styles.StyleNames | SVGDocument.h:10-15 | the attributes a style writes are fill, stroke, stroke-width, and stroke-linecap exactly when a line cap is set |
| Styles.LineJoinNotAttribute | SVGDocument.h:16-18 | whatever its value, the line join text is not `name="value" ` syntax |
| Styles.StyleParsesIff | SVGDocument.h:10-18 | a quote-free style's text reads back as its attribute list if no line join is set, and fails to read otherwise |
| Styles.StyleAttrsWellFormed | SVGDocument.h:10-15 | the names and values a quote-free style writes fit the quoted attribute syntax |
| Styles.Builder.constructor | SVGDocument.h:88-92 | new style fields are fill = stroke = `"none"`, width 1, no line cap, no line join |
| Styles.Builder.SetFillColor | SVGDocument.h:64-67 | sets the fill, leaves the other four fields unchanged, returns the same object |
| Styles.Builder.SetStrokeColor | SVGDocument.h:68-72 | sets the stroke, leaves the other four fields unchanged, returns the same object |
| Styles.Builder.SetStrokeWidth | SVGDocument.h:73-77 | sets the width, leaves the other four fields unchanged, returns the same object |
| Styles.Builder.SetStrokeLineCap | SVGDocument.h:78-82 | sets the line cap, leaves the other four fields unchanged, returns the same object |
| Styles.Builder.SetStrokeLineJoin | SVGDocument.h:83-86 | sets the line join, leaves the other four fields unchanged, returns the same object |
| Shapes.Name | SVGDocument.h:101-103 | the tag of each shape: `circle` here, `polyline` and `text` at lines 130-132 and 150-152; exactly one per shape, by the exhaustive match |
| Shapes.CircleBody | SVGDocument.h:114-121 | what a circle writes after its tag; `Shapes.CircleAsAttributes` states it |
| Shapes.PolylineBody | SVGDocument.h:137-146 | what a polyline writes after its tag; `Shapes.PolylineAsAttributes` states it |
| Shapes.TextBody | SVGDocument.h:182-192 | what a text writes after its tag; `Shapes.TextAsAttributes` states it |
| Shapes.Body | SVGDocument.h:213-224 | the writer of the shape's own kind; `Shapes.BodyAsAttributes` states it |
| Shapes.CircleAsAttributes | SVGDocument.h:114-121 | a circle writes cx, cy, r, then the style attributes, then the line join text, then `/>` |
| Shapes.PointsAttribute | SVGDocument.h:138-142 | the vertices are written as the value of one attribute `points="…" ` |
| Shapes.PolylineAsAttributes | SVGDocument.h:137-146 | a polyline writes `points` holding its vertices, then the style attributes, then the line join text, then `/>` |
| Shapes.FontText | SVGDocument.h:185-188 | font-size is always written; font-family follows it exactly when a family is set |
| Shapes.TextGeometryText | SVGDocument.h:183-188 | a text writes x, y, dx, dy, font-size and, when set, font-family, in that order |
| Shapes.TextAsAttributes | SVGDocument.h:182-192 | a text writes its own attributes, then the style attributes, then the line join text, then `>` + data + `</text>` |
| Shapes.TextAttributeNames | SVGDocument.h:183-189 | the names a text writes, in order: x, y, dx, dy, font-size, font-family only when set, then fill, stroke, stroke-width, stroke-linecap only when set |
| Shapes.BodyAsAttributes | SVGDocument.h:213-224 | each shape is written by its own writer: its attribute list in fixed order, the line join text, and its own closing syntax |
| Shapes.GeometryAttrsWellFormed | SVGDocument.h:117-118 | a shape's own attributes fit the quoted attribute syntax when the font family holds no quote (the circle's here; the others below) |
| Shapes.PointsTextQuoteFree | SVGDocument.h:138-142 | the `points` value holds no quote |
| Shapes.TextGeometryWellFormed | SVGDocument.h:183-188 | a text's own attributes fit the quoted attribute syntax when its font family holds no quote |
| Shapes.BodyParsesIff | SVGDocument.h:16-18 | a quote-free shape's attribute section reads back as its attribute list exactly when no line join is set, and fails to read otherwise |
| Shapes.PointsTextAppend | SVGDocument.h:139-141 | the points text of two vertex lists joined is the two texts joined: one `x,y ` per vertex, in order |
| Shapes.PointsTextStep | SVGDocument.h:139-141 | one more vertex adds exactly its `x,y ` after those before it |
| Shapes.ParsePointText | SVGDocument.h:140 | one written `x,y ` pair of integers reads back as that vertex, before whatever follows it |
| Shapes.PointsRoundTrip | SVGDocument.h:139-141 | with integer coordinates, the `points` value reads back to the exact vertex list, in insertion order; the source's six-significant-digit output of doubles would not read back in general |
| Shapes.WritePoints | SVGDocument.h:139-141 | the loop over the vertices writes the points text of the whole list |
| Shapes.WriteBody | SVGDocument.h:213-224 | writing a shape's body gives exactly `Body` for every kind of shape |
| Builders.Circle.Value | SVGDocument.h:199 | the copy of the circle a document stores: a circle with the object's centre, radius and style |
| Builders.Circle.constructor | SVGDocument.h:109-111 | a new circle is at the origin with radius 1 and the default style |
| Builders.Circle.SetCenter | SVGDocument.h:97-100 | sets the centre only, returns the same object |
| Builders.Circle.SetRadius | SVGDocument.h:104-107 | sets the radius only, returns the same object |
| Builders.Polyline.Value | SVGDocument.h:202 | the copy of the polyline a document stores: a polyline with the object's vertices and style |
| Builders.Polyline.constructor | SVGDocument.h:134-135 | a new polyline has no vertices and the default style |
| Builders.Polyline.AddPoint | SVGDocument.h:126-129 | the vertex list grows by exactly the new point at its end, the earlier vertices and the style unchanged; returns the same object |
| Builders.Text.Value | SVGDocument.h:205 | the copy of the text a document stores: a text with the object's fields and style |
| Builders.Text.constructor | SVGDocument.h:174-179 | a new text is at the origin with zero offset, font size 1, no family, empty data and the default style |
| Builders.Text.SetPoint | SVGDocument.h:153-156 | sets the position only, returns the same object |
| Builders.Text.SetOffset | SVGDocument.h:157-160 | sets the offset only, returns the same object |
| Builders.Text.SetFontSize | SVGDocument.h:161-164 | sets the font size only, returns the same object |
| Builders.Text.SetFontFamily | SVGDocument.h:165-168 | sets the font family only, returns the same object |
| Builders.Text.SetData | SVGDocument.h:169-172 | sets the data only, returns the same object |
| Svg.Element | SVGDocument.h:211-224 | `<`, the tag, a space, then the shape's body; `Svg.WriteElement` writes it and `Svg.ElementAt` places it |
| Svg.DocumentText | SVGDocument.h:208-227 | the prologue, the elements in order, then `</svg>`; `Svg.Document.Render` writes it and the lemmas below state its shape |
| Svg.Document.constructor | SVGDocument.h:196 | a new document holds no shapes |
| Svg.Document.Add | SVGDocument.h:197-207 | a circle, polyline or text is appended as the last shape; the empty alternative leaves the list unchanged |
| Svg.Document.Render | SVGDocument.h:208-227 | the output is the prologue, then `<` + name + space + body for each shape in insertion order, then `</svg>` |
| Svg.WriteElement | SVGDocument.h:211-224 | one loop step writes `<`, the shape's tag, a space, then its body |
| Svg.ElementsTextAppend | SVGDocument.h:210-225 | the elements of two shape lists joined are the two element texts joined |
| Svg.ElementsTextStep | SVGDocument.h:210-225 | one more shape adds exactly its element after those of the shapes before it |
| Svg.ElementAt | SVGDocument.h:210-225 | the i-th shape's element sits between the elements of the shapes before it and those after it |
| Svg.RenderStep | SVGDocument.h:210-225 | writing the next element after the prologue and the elements so far gives the prologue and the elements of one more shape |
| Svg.AddedElementIsLast | SVGDocument.h:197-227 | after adding a shape, the rendered text is the old elements, then the new shape's element, then `</svg>` |
| Svg.EmptyDocument | SVGDocument.h:209-226 | a document with no shapes renders as the prologue followed directly by `</svg>` |
| Svg.RenderTwice | SVGDocument.h:208-227 | rendering changes nothing, so two renders of a document write the same text |
| Scenarios.DefaultStyleWrites | SVGDocument.h:10-12 | the default style writes `fill="none" stroke="none" stroke-width="1" ` and nothing else |
| Scenarios.CircleText | SVGDocument.h:114-121 | a default circle at (5, 10) with radius 3 writes `cx="5" cy="10" r="3" fill="none" stroke="none" stroke-width="1" />` |
| Scenarios.EmptyPolylineText | SVGDocument.h:137-146 | a polyline without vertices writes `points="" ` then the default style then `/>` |
| Scenarios.PolylinePointsText | SVGDocument.h:139-141 | the vertices (0,0), (1,1), (2,0) are written as `0,0 1,1 2,0 ` |
| Scenarios.PolylineText | SVGDocument.h:137-146 | that polyline writes `points="0,0 1,1 2,0 " `, the default style, then `/>` |
| Scenarios.TextWithFamily | SVGDocument.h:182-192 | a text of size 12 with a family writes font-family right after font-size, and ends with `>hi</text>` |
| Scenarios.TextWithoutFamily | SVGDocument.h:182-192 | a text at (1, 2) of size 12 without a family writes font-size right before the style, and ends with `>hi</text>` |
| Scenarios.TextWithoutFamilyNames | SVGDocument.h:186-188 | that text writes no font-family attribute |
| Scenarios.CircleLineCap | SVGDocument.h:13-15 | a line cap of "round" is written as `stroke-linecap="round"` after stroke-width; a circle without one writes no stroke-linecap attribute |

## Left out

- Floating point: coordinates, the radius and the stroke width are doubles in the source. Here they are integers written in decimal. A stream writes an integral double that way only when its magnitude is below one million.
- Large values: the integers are unbounded. For a magnitude of one million or more the model writes every digit, where the source writes exponent notation such as `1e+06` or `-2e+06`. Fractional values and the stream's six-significant-digit precision are not modelled either.
- The output stream: `operator<<` and `Render` return a string here. The stream's error states are not modelled.
- Exceptions: writing an unset colour throws `std::bad_variant_access` in the source. Here it is a precondition (`Colors.FormatColor`, `Styles.Printable`, `Svg.AllPrintable`), so the text written before the throw is not modelled.
- Svg.Document.Render: requires every stored shape to have printable colours; the source instead throws part-way through the output.
- Ownership and dispatch: `unique_ptr`, `Abstract_builder`, virtual `NameFigure` and the `dynamic_cast` chain become the closed datatype `Shapes.Shape` with an exhaustive match. Exactly one of the three tag comparisons matches per shape, so the match picks the same writer.
- Svg.Document.Add: takes the shape value (`Value()` of a builder object) rather than the object. The source copies the object, so later changes to the caller's object do not reach the document in either case.
- Chaining through the style setters: in the source, `SetFillColor` and the other style setters return the shape (CRTP). Here they are methods of the composed `Styles.Builder` object and return that object.
- `NoneColor` is a mutable global in the source. Here it is a constant.
- `uint32_t` font size: a subset type of the integers below 2^32. No arithmetic is done on it, so no wrap-around arises.
- Text data, named colours and the line cap, line join and font family values are written unescaped. The parse-back lemmas therefore require the named fill and stroke colours, the line cap and the font family to hold no quote. The line join needs no such condition: its text fails to read back whatever it holds. The text data is not read back.
- `Point` and `Rgb` constructors are plain datatype values. The `Rgb` components are unbounded integers rather than 32-bit `int`; no arithmetic is done on them, so no wrap-around arises.
