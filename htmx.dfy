/** The htmx attributes: each is a double-quoted attribute whose one value is a URL,
    a target selector, a swap strategy or an event handler. */
module Htmx {
  import opened Text
  import opened Attributes
  import opened Merge

  function HxPost(url: string): (a: Attribute)
    ensures a.name == "hx-post" && a.values == [url] && a.attrType == DoubleQuoted && Rendered(a) == "hx-post=\"" + url + "\""
  {
    Attr("hx-post", DoubleQuoted, [url])
  }

  function HxPut(url: string): (a: Attribute)
    ensures a.name == "hx-put" && a.values == [url] && a.attrType == DoubleQuoted && Rendered(a) == "hx-put=\"" + url + "\""
  {
    Attr("hx-put", DoubleQuoted, [url])
  }

  function HxDelete(url: string): (a: Attribute)
    ensures a.name == "hx-delete" && a.values == [url] && a.attrType == DoubleQuoted && Rendered(a) == "hx-delete=\"" + url + "\""
  {
    Attr("hx-delete", DoubleQuoted, [url])
  }

  function HxTarget(value: string): (a: Attribute)
    ensures a.name == "hx-target" && a.values == [value] && a.attrType == DoubleQuoted && Rendered(a) == "hx-target=\"" + value + "\""
  {
    Attr("hx-target", DoubleQuoted, [value])
  }

  function HxSwap(value: string): (a: Attribute)
    ensures a.name == "hx-swap" && a.values == [value] && a.attrType == DoubleQuoted && Rendered(a) == "hx-swap=\"" + value + "\""
  {
    Attr("hx-swap", DoubleQuoted, [value])
  }

  /** `hx-on:<event>`, whose value is the handler expression. */
  function HxOn(event: string, expr: string): (a: Attribute)
    ensures a.name == "hx-on:" + event && a.values == [expr] && a.attrType == DoubleQuoted
    ensures Rendered(a) == "hx-on:" + event + "=\"" + expr + "\""
  {
    Attr("hx-on:" + event, DoubleQuoted, [expr])
  }

  /** Two handlers for the same event on one element merge into one attribute whose
      value holds both expressions, in order, as if one handler held both. */
  lemma HandlersForOneEventMerge(event: string, x1: string, x2: string)
    ensures Merged([HxOn(event, x1), HxOn(event, x2)]) == [Attribute("hx-on:" + event, [x1, x2], DoubleQuoted)]
    ensures Block([HxOn(event, x1), HxOn(event, x2)]) == " " + Rendered(HxOn(event, x1 + " " + x2))
  {
    SameNameMerges(HxOn(event, x1), HxOn(event, x2));
    assert [x1] + [x2] == [x1, x2];
    assert Join([x1, x2]) == Join([x1 + " " + x2]) by {
      assert [x1, x2][1..] == [x2];
    }
  }

  /** Handlers for different events stay two attributes, in the order they were given. */
  lemma HandlersForTwoEventsStayApart(e1: string, e2: string, x1: string, x2: string)
    requires e1 != e2
    ensures Merged([HxOn(e1, x1), HxOn(e2, x2)]) == [HxOn(e1, x1), HxOn(e2, x2)]
    ensures Block([HxOn(e1, x1), HxOn(e2, x2)]) == " " + Rendered(HxOn(e1, x1)) + " " + Rendered(HxOn(e2, x2))
  {
    var a1, a2 := HxOn(e1, x1), HxOn(e2, x2);
    assert a1.name != a2.name by {
      assert a1.name[6..] == e1 && a2.name[6..] == e2;
    }
    var attrs := [a1, a2];
    MergeDistinctIsIdentity(attrs);
    BlockTrim(attrs);
    assert attrs[..1] == [a1];
    assert Spaced([a1]) == Spaced([a1][..0]) + " " + Rendered(a1);
  }
}
