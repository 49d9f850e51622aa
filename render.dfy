/** The text the serializer produces for a tree when every write succeeds. */
module Render {
  import opened Text
  import opened Merge
  import opened Attributes
  import opened Content
  import opened Config

  const Doctype := "<!DOCTYPE html>"

  /** Written right after the opening tag of an element that has children. */
  function OpenIndent(ind: Indentation, depth: int): string {
    if ind.enabled then "\n" + Repeat(" ", depth * ind.level) else ""
  }

  /** Written right before the closing tag of an element that has children. */
  function CloseIndent(ind: Indentation, depth: int): string {
    if ind.enabled then "\n" + Repeat(" ", (depth - 1) * ind.level) else ""
  }

  /** `<tag attrs/>`, the whole of a void element. */
  function VoidTag(e: Element): string { "<" + e.tagName + Block(e.attrs) + "/>" }

  /** `<tag attrs>`, the opening tag of any other element. */
  function OpenTag(e: Element): string { "<" + e.tagName + Block(e.attrs) + ">" }

  /** `</tag>`. */
  function CloseTag(e: Element): string { "</" + e.tagName + ">" }

  /** The rendering of element `e` at nesting depth `depth` (the root is at depth 1). */
  function Markup(ind: Indentation, e: Element, depth: int): string
    decreases e, |e.contents| + 1
  {
    if e.elType == Void then VoidTag(e)
    else
      OpenTag(e)
      + (if |e.contents| > 0 then OpenIndent(ind, depth) else "")
      + ChildrenMarkup(ind, e, 0, depth)
      + (if |e.contents| > 0 then CloseIndent(ind, depth) else "")
      + CloseTag(e)
  }

  /** The renderings of the children of `e` from position `i` on, with nothing between them. */
  function ChildrenMarkup(ind: Indentation, e: Element, i: nat, depth: int): string
    requires i <= |e.contents|
    decreases e, |e.contents| - i
  {
    if i == |e.contents| then ""
    else
      var ct := e.contents[i];
      var text := match ct.ctType
        case Node => Markup(ind, ct.child, depth + 1)
        case Raw => ct.raw
        case OtherContentType(_) => "";
      text + ChildrenMarkup(ind, e, i + 1, depth)
  }

  /** Every child the serializer visits is an element or raw text; a void element's
      children are never visited. */
  predicate Renderable(e: Element)
    decreases e, |e.contents| + 1
  {
    e.elType == Void || ChildrenRenderable(e, 0)
  }

  predicate ChildrenRenderable(e: Element, i: nat)
    requires i <= |e.contents|
    decreases e, |e.contents| - i
  {
    i == |e.contents| ||
    (var ct := e.contents[i];
     (ct.ctType.Raw? || (ct.ctType.Node? && Renderable(ct.child))) && ChildrenRenderable(e, i + 1))
  }

  /** A child the serializer can write: raw text, or an element whose own tree is renderable. */
  predicate Visitable(ct: Content) {
    ct.ctType.Raw? || (ct.ctType.Node? && Renderable(ct.child))
  }

  /** `ChildrenRenderable` says, one position at a time, that every child from `i` on is visitable. */
  lemma {:induction false} ChildrenRenderableEvery(e: Element, i: nat)
    requires i <= |e.contents|
    ensures ChildrenRenderable(e, i) <==> forall k :: i <= k < |e.contents| ==> Visitable(e.contents[k])
    decreases |e.contents| - i
  {
    if i < |e.contents| {
      ChildrenRenderableEvery(e, i + 1);
    }
  }

  /** The builders make renderable trees: a tag is renderable exactly when it is void or
      every child handed to it is raw text or a renderable element. */
  lemma TagRenderable(tagName: string, elType: ElementType, attrs: seq<Attribute>, cs: seq<Content>)
    ensures Renderable(Tag(tagName, elType, attrs, cs).child)
            <==> (elType == Void || forall k :: 0 <= k < |cs| ==> Visitable(cs[k]))
  {
    ChildrenRenderableEvery(Tag(tagName, elType, attrs, cs).child, 0);
  }

  /** Raw text is always a child the serializer can write. */
  lemma RawTextVisitable(text: string)
    ensures Visitable(RawText(text)) && RawText(text).raw == text
  {
  }

  /** `input` renders as `<input attrs/>` at any depth and with any indentation. */
  lemma InputMarkup(ind: Indentation, attrs: seq<Attribute>, depth: int)
    ensures Markup(ind, Input(attrs).child, depth) == "<input" + Block(attrs) + "/>"
    ensures Renderable(Input(attrs).child)
  {
  }

  /** The whole document: the doctype comes first exactly when the root is an `html` element. */
  function Document(ind: Indentation, root: Element): string {
    (if root.tagName == "html" then Doctype else "") + Markup(ind, root, 1)
  }

  /** Without indentation, depth changes nothing in the output. */
  lemma {:induction false} UnindentedIgnoresDepth(ind: Indentation, e: Element, d1: int, d2: int)
    requires !ind.enabled
    ensures Markup(ind, e, d1) == Markup(ind, e, d2)
    decreases e, |e.contents| + 1
  {
    if e.elType != Void {
      ChildrenUnindentedIgnoreDepth(ind, e, 0, d1, d2);
    }
  }

  lemma {:induction false} ChildrenUnindentedIgnoreDepth(ind: Indentation, e: Element, i: nat, d1: int, d2: int)
    requires !ind.enabled && i <= |e.contents|
    ensures ChildrenMarkup(ind, e, i, d1) == ChildrenMarkup(ind, e, i, d2)
    decreases e, |e.contents| - i
  {
    if i < |e.contents| {
      var ct := e.contents[i];
      if ct.ctType.Node? {
        UnindentedIgnoresDepth(ind, ct.child, d1 + 1, d2 + 1);
      }
      ChildrenUnindentedIgnoreDepth(ind, e, i + 1, d1, d2);
    }
  }

  /** Indentation only ever appears around a non-empty child list: an element without
      children renders the same whatever the indentation setting. */
  lemma ChildlessIgnoresIndentation(ind1: Indentation, ind2: Indentation, e: Element, depth: int)
    requires |e.contents| == 0
    ensures Markup(ind1, e, depth) == Markup(ind2, e, depth)
    ensures e.elType != Void ==> Markup(ind1, e, depth) == "<" + e.tagName + Block(e.attrs) + "></" + e.tagName + ">"
  {
  }

  /** A void element renders as `<tag attrs/>` whatever children it was given. */
  lemma VoidIgnoresChildren(ind: Indentation, e: Element, depth: int, cs: seq<Content>)
    requires e.elType == Void
    ensures Markup(ind, e, depth) == Markup(ind, e.(contents := cs), depth) == "<" + e.tagName + Block(e.attrs) + "/>"
  {
  }
}
