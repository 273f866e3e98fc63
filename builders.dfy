/**
 * The shapes as the objects a caller builds: each holds its own fields and
 * its own style (`Builder<T>`, composed rather than inherited), and each
 * setter updates one field in place and returns the object it was called on.
 * `Value()` is the copy `Document::Add` takes.
 */
module Builders {
  import opened Wrappers
  import Styles
  import Shapes

  class Circle {
    const style: Styles.Builder
    var coordinate: Shapes.Point
    var radius: int

    /** The copy of this circle that a document stores. */
    function Value(): (s: Shapes.Shape)
      reads this, style
      ensures s.Circle?
    {
      Shapes.Circle(coordinate, radius, style.Current())
    }

    constructor ()
      ensures fresh(style)
      ensures Value() == Shapes.DefaultCircle
    {
      style := new Styles.Builder();
      coordinate := Shapes.Origin;
      radius := 1;
    }

    method SetCenter(p: Shapes.Point) returns (self: Circle)
      modifies this
      ensures self == this
      ensures Value() == Shapes.Circle(p, old(radius), old(style.Current()))
    {
      coordinate := p;
      self := this;
    }

    method SetRadius(d: int) returns (self: Circle)
      modifies this
      ensures self == this
      ensures Value() == Shapes.Circle(old(coordinate), d, old(style.Current()))
    {
      radius := d;
      self := this;
    }
  }

  class Polyline {
    const style: Styles.Builder
    var vertex: seq<Shapes.Point>

    /** The copy of this polyline that a document stores. */
    function Value(): (s: Shapes.Shape)
      reads this, style
      ensures s.Polyline?
    {
      Shapes.Polyline(vertex, style.Current())
    }

    constructor ()
      ensures fresh(style)
      ensures Value() == Shapes.DefaultPolyline
    {
      style := new Styles.Builder();
      vertex := [];
    }

    /** Appends one vertex; the earlier vertices keep their order. */
    method AddPoint(p: Shapes.Point) returns (self: Polyline)
      modifies this
      ensures self == this
      ensures vertex == old(vertex) + [p]
      ensures Value() == Shapes.Polyline(old(vertex) + [p], old(style.Current()))
    {
      vertex := vertex + [p];
      self := this;
    }
  }

  class Text {
    const style: Styles.Builder
    var point: Shapes.Point
    var offset: Shapes.Point
    var fontSize: Shapes.uint32
    var fontFamily: Option<string>
    var data: string

    /** The copy of this text that a document stores. */
    function Value(): (s: Shapes.Shape)
      reads this, style
      ensures s.Text?
    {
      Shapes.Text(point, offset, fontSize, fontFamily, data, style.Current())
    }

    constructor ()
      ensures fresh(style)
      ensures Value() == Shapes.DefaultText
    {
      style := new Styles.Builder();
      point, offset := Shapes.Origin, Shapes.Origin;
      fontSize := 1;
      fontFamily := None;
      data := "";
    }

    method SetPoint(p: Shapes.Point) returns (self: Text)
      modifies this
      ensures self == this
      ensures Value() == Shapes.Text(p, old(offset), old(fontSize), old(fontFamily), old(data), old(style.Current()))
    {
      point := p;
      self := this;
    }

    method SetOffset(p: Shapes.Point) returns (self: Text)
      modifies this
      ensures self == this
      ensures Value() == Shapes.Text(old(point), p, old(fontSize), old(fontFamily), old(data), old(style.Current()))
    {
      offset := p;
      self := this;
    }

    method SetFontSize(i: Shapes.uint32) returns (self: Text)
      modifies this
      ensures self == this
      ensures Value() == Shapes.Text(old(point), old(offset), i, old(fontFamily), old(data), old(style.Current()))
    {
      fontSize := i;
      self := this;
    }

    method SetFontFamily(s: string) returns (self: Text)
      modifies this
      ensures self == this
      ensures Value() == Shapes.Text(old(point), old(offset), old(fontSize), Some(s), old(data), old(style.Current()))
    {
      fontFamily := Some(s);
      self := this;
    }

    method SetData(d: string) returns (self: Text)
      modifies this
      ensures self == this
      ensures Value() == Shapes.Text(old(point), old(offset), old(fontSize), old(fontFamily), d, old(style.Current()))
    {
      data := d;
      self := this;
    }
  }
}
