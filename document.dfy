/**
 * `Document` (SVGDocument.h:194-230): an ordered list of owned shape copies,
 * `Add` to append one and `Render` to write the whole SVG text.
 */
module Svg {
  import opened Wrappers
  import opened Styles
  import opened Shapes

  /** The XML declaration and the opening `svg` tag. */
  const Prologue: string :=
    "<?xml version=\"1.0\" encoding=\"UTF-8\" ?><svg xmlns=\"http://www.w3.org/2000/svg\" version=\"1.1\">"

  const Epilogue: string := "</svg>"

  predicate AllPrintable(shapes: seq<Shape>)
  {
    forall i :: 0 <= i < |shapes| ==> Printable(shapes[i].style)
  }

  /** A shape whose colours can be written (`Render` throws on any other). */
  type PrintableShape = s: Shape | Printable(s.style) witness DefaultCircle

  /** One element: `<`, the tag, a space, and what the shape writes. */
  function Element(s: PrintableShape): string
  {
    "<" + Name(s) + " " + Body(s)
  }

  /** The elements of the shapes, one per shape, in order. */
  function ElementsText(shapes: seq<PrintableShape>): string
  {
    ConcatMap(shapes, Element)
  }

  /** The whole document text `Render` writes. */
  function DocumentText(shapes: seq<PrintableShape>): string
  {
    Prologue + ElementsText(shapes) + Epilogue
  }

  lemma ElementsTextAppend(a: seq<PrintableShape>, b: seq<PrintableShape>)
    ensures ElementsText(a + b) == ElementsText(a) + ElementsText(b)
  {
    ConcatMapAppend(a, b, Element);
  }

  /**
   * The elements appear in insertion order, one per shape: the text of the
   * `i`-th shape sits between those of the shapes before it and after it.
   */
  lemma ElementAt(shapes: seq<PrintableShape>, i: nat)
    requires i < |shapes|
    ensures ElementsText(shapes) ==
      ElementsText(shapes[..i]) + Element(shapes[i]) + ElementsText(shapes[i + 1..])
  {
    var before, after := shapes[..i + 1], shapes[i + 1..];
    assert before[..i] == shapes[..i];
    assert shapes == before + after;
    ElementsTextAppend(before, after);
  }

  /** The text of the first `i + 1` shapes extends that of the first `i` by the `i`-th element. */
  lemma ElementsTextStep(shapes: seq<PrintableShape>, i: nat)
    requires i < |shapes|
    ensures ElementsText(shapes[..i + 1]) == ElementsText(shapes[..i]) + Element(shapes[i])
  {
    assert shapes[..i + 1][..i] == shapes[..i];
  }

  /** Adding a shape adds exactly its element, after all the earlier ones, before `</svg>`. */
  lemma AddedElementIsLast(shapes: seq<PrintableShape>, s: PrintableShape)
    ensures DocumentText(shapes + [s]) == Prologue + ElementsText(shapes) + Element(s) + Epilogue
  {
    var all := shapes + [s];
    assert all[..|shapes|] == shapes;
    assert all[..|shapes| + 1] == all;
    RenderStep(Prologue, all, |shapes|, Prologue + ElementsText(shapes), Element(s));
  }

  /** Writing one more element extends the text written so far by that element. */
  lemma RenderStep(p: string, shapes: seq<PrintableShape>, i: nat, written: string, element: string)
    requires i < |shapes|
    requires written == p + ElementsText(shapes[..i])
    requires element == Element(shapes[i])
    ensures written + element == p + ElementsText(shapes[..i + 1])
  {
    ElementsTextStep(shapes, i);
    Associative(p, ElementsText(shapes[..i]), element);
  }

  /**
   * Stated over variables so that the solver regroups the concatenation
   * without unfolding the literal text of an element.
   */
  lemma Associative(p: string, a: string, e: string)
    ensures p + (a + e) == (p + a) + e
  {
  }

  /** Writes one element: `<`, the tag name, a space, then the shape's own text. */
  method WriteElement(s: PrintableShape) returns (element: string)
    ensures element == Element(s)
  {
    var body := WriteBody(s);
    element := "<" + Name(s) + " " + body;
  }

  /** A document with no shapes is the prologue and `</svg>` with nothing between. */
  lemma EmptyDocument()
    ensures DocumentText([]) ==
      "<?xml version=\"1.0\" encoding=\"UTF-8\" ?><svg xmlns=\"http://www.w3.org/2000/svg\" version=\"1.1\"></svg>"
  {
  }

  class Document {
    var objects: seq<Shape>

    constructor ()
      ensures objects == []
    {
      objects := [];
    }

    /**
     * Stores a copy of a circle, polyline or text at the end of the list;
     * the empty alternative (`None`) adds nothing.
     */
    method Add(obj: Option<Shape>)
      modifies this
      ensures objects == old(objects) + (if obj.Some? then [obj.value] else [])
    {
      match obj {
        case Some(s) => objects := objects + [s];
        case None =>
      }
    }

    /** Writes the prologue, then each shape's element in insertion order, then `</svg>`. */
    method Render() returns (out: string)
      requires AllPrintable(objects)
      ensures out == DocumentText(objects)
    {
      ghost var shapes: seq<PrintableShape> := objects;
      out := Prologue;
      for i := 0 to |objects|
        invariant out == Prologue + ElementsText(shapes[..i])
      {
        var element := WriteElement(objects[i]);
        RenderStep(Prologue, shapes, i, out, element);
        out := out + element;
      }
      assert shapes[..|shapes|] == shapes;
      out := out + Epilogue;
    }
  }

  /** Rendering changes nothing, so rendering twice writes the same text twice. */
  method RenderTwice(d: Document) returns (first: string, second: string)
    requires AllPrintable(d.objects)
    ensures first == second == DocumentText(d.objects)
  {
    first := d.Render();
    second := d.Render();
  }
}
