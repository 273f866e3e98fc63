/**
 * The attribute syntax SVG 1.1 inherits from XML: `name="value"`, here each
 * followed by the single space the serialiser writes after it. An attribute
 * list is the reference against which the shape serialisers are stated, and
 * `ParseAttrs` reads such text back.
 */
module Attributes {
  import opened Wrappers

  datatype Attr = Attr(name: string, value: string)

  /** `name="value" ` */
  function AttrText(a: Attr): string
  {
    a.name + "=\"" + a.value + "\" "
  }

  function AttrsText(attrs: seq<Attr>): string
  {
    if attrs == [] then "" else AttrText(attrs[0]) + AttrsText(attrs[1..])
  }

  /** The names of a list of attributes, in order. */
  function Names(attrs: seq<Attr>): seq<string>
  {
    seq(|attrs|, i requires 0 <= i < |attrs| => attrs[i].name)
  }

  /** A name and value that the quoted syntax can carry unambiguously. */
  predicate WellFormed(a: Attr)
  {
    |a.name| > 0 && '=' !in a.name && '"' !in a.name && '"' !in a.value
  }

  predicate AllWellFormed(attrs: seq<Attr>)
  {
    forall i :: 0 <= i < |attrs| ==> WellFormed(attrs[i])
  }

  /** Reads one `name="value" ` off the front of `t`; fails on anything else. */
  function ParseAttr(t: string): (r: Option<(Attr, string)>)
    ensures r.Some? ==> |r.value.1| < |t|
  {
    match IndexOf(t, '=')
    case None => None
    case Some(i) =>
      if i == 0 || '"' in t[..i] || i + 1 >= |t| || t[i + 1] != '"' then None
      else
        var after := t[i + 2..];
        match IndexOf(after, '"')
        case None => None
        case Some(j) =>
          if j + 1 >= |after| || after[j + 1] != ' ' then None
          else Some((Attr(t[..i], after[..j]), after[j + 2..]))
  }

  /** Reads a whole attribute list; `None` if any part is not attribute syntax. */
  function ParseAttrs(t: string): Option<seq<Attr>>
    decreases |t|
  {
    if t == [] then Some([])
    else
      match ParseAttr(t)
      case None => None
      case Some((a, rest)) =>
        match ParseAttrs(rest)
        case None => None
        case Some(more) => Some([a] + more)
  }

  /** `Some(attrs + more)` when `r` is `Some(more)`, `None` otherwise. */
  function Prepend(attrs: seq<Attr>, r: Option<seq<Attr>>): Option<seq<Attr>>
  {
    match r
    case None => None
    case Some(more) => Some(attrs + more)
  }

  lemma AttrsTextAppend(a: seq<Attr>, b: seq<Attr>)
    ensures AttrsText(a + b) == AttrsText(a) + AttrsText(b)
    decreases |a|
  {
    if a == [] {
      assert a + b == b;
    } else {
      assert (a + b)[0] == a[0] && (a + b)[1..] == a[1..] + b;
      AttrsTextAppend(a[1..], b);
    }
  }

  /** An attribute section, a second one with trailing text, and a closing text, joined. */
  lemma JoinSections(g: seq<Attr>, s: seq<Attr>, join: string, close: string)
    ensures AttrsText(g) + (AttrsText(s) + join) + close == AttrsText(g + s) + join + close
  {
    AttrsTextAppend(g, s);
  }

  /** One well-formed attribute is read back exactly, and the rest is left. */
  lemma ParseAttrText(a: Attr, rest: string)
    requires WellFormed(a)
    ensures ParseAttr(AttrText(a) + rest) == Some((a, rest))
  {
    var t := AttrText(a) + rest;
    assert t == a.name + ['='] + ("\"" + a.value + "\" " + rest);
    IndexOfAfter(a.name, '=', "\"" + a.value + "\" " + rest);
    var i := |a.name|;
    assert t[..i] == a.name;
    assert t[i + 1] == '"';
    var after := t[i + 2..];
    assert after == a.value + ['"'] + (" " + rest);
    IndexOfAfter(a.value, '"', " " + rest);
    var j := |a.value|;
    assert after[..j] == a.value;
    assert after[j + 1] == ' ';
    assert after[j + 2..] == rest;
  }

  /** One well-formed attribute in front of any text adds that attribute in front of what the text parses as. */
  lemma ParseAttrsCons(a: Attr, rest: string)
    requires WellFormed(a)
    ensures ParseAttrs(AttrText(a) + rest) == Prepend([a], ParseAttrs(rest))
  {
    ParseAttrText(a, rest);
    assert AttrText(a) + rest != [];
  }

  /** A well-formed list followed by any text parses as the list followed by what that text parses as. */
  lemma {:induction false} ParseAttrsAppend(attrs: seq<Attr>, rest: string)
    requires AllWellFormed(attrs)
    ensures ParseAttrs(AttrsText(attrs) + rest) == Prepend(attrs, ParseAttrs(rest))
    decreases |attrs|
  {
    if attrs == [] {
      assert AttrsText(attrs) + rest == rest;
      PrependNothing(ParseAttrs(rest));
    } else {
      var tail := AttrsText(attrs[1..]) + rest;
      assert AttrsText(attrs) + rest == AttrText(attrs[0]) + tail;
      ParseAttrsCons(attrs[0], tail);
      ParseAttrsAppend(attrs[1..], rest);
      PrependTwice([attrs[0]], attrs[1..], ParseAttrs(rest));
      assert [attrs[0]] + attrs[1..] == attrs;
    }
  }

  lemma PrependNothing(r: Option<seq<Attr>>)
    ensures Prepend([], r) == r
  {
    if r.Some? {
      assert [] + r.value == r.value;
    }
  }

  lemma PrependTwice(a: seq<Attr>, b: seq<Attr>, r: Option<seq<Attr>>)
    ensures Prepend(a, Prepend(b, r)) == Prepend(a + b, r)
  {
    if r.Some? {
      assert a + (b + r.value) == (a + b) + r.value;
    }
  }

  /** The attribute syntax round-trips: writing a well-formed list and reading it back gives the list. */
  lemma ParseAttrsRoundTrip(attrs: seq<Attr>)
    requires AllWellFormed(attrs)
    ensures ParseAttrs(AttrsText(attrs)) == Some(attrs)
  {
    ParseAttrsAppend(attrs, "");
    assert AttrsText(attrs) + "" == AttrsText(attrs);
    assert attrs + [] == attrs;
  }
}
