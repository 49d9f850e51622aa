/** The content tree and the builder functions that are the only way to make one. */
module Content {
  import opened Attributes

  /** Void elements have no closing tag and never render children. The source's element
      type is a string type; `OtherElementType` is any other string, the zero value among them.
      It is meant only for labels other than "non-void" and "void", which the named
      variants stand for. */
  datatype ElementType = NonVoid | Void | OtherElementType(kind: string)

  /** The source's content type is a string type; `OtherContentType` is any other string
      than "raw-text" and "node", which the named variants stand for. */
  datatype ContentType = Raw | Node | OtherContentType(kind: string)

  datatype Element = Element(tagName: string, attrs: seq<Attribute>, contents: seq<Content>, elType: ElementType)

  /** One child: an element (`Node`) or raw text (`Raw`). Like the source's struct it carries
      both payloads; the one `ctType` does not select keeps its zero value. */
  datatype Content = Content(ctType: ContentType, child: Element, raw: string)

  /** The zero value of an element: no tag, no attributes, no children, element type "". */
  const ZeroElement := Element("", [], [], OtherElementType(""))

  /** The tag constructor applied to its children: the closure it returns is modelled by
      taking the children as the last argument. It builds an element child carrying the
      tag, the element type, the attributes and the children unchanged. */
  function Tag(tagName: string, elType: ElementType, attrs: seq<Attribute>, contents: seq<Content>): (r: Content)
    ensures r.ctType == Node && r.raw == ""
    ensures r.child.tagName == tagName && r.child.elType == elType
    ensures r.child.attrs == attrs && r.child.contents == contents
  {
    Content(Node, Element(tagName, attrs, contents, elType), "")
  }

  /** Raw text, written verbatim; its element payload is the zero element. */
  function RawText(text: string): (r: Content)
    ensures r.ctType == Raw && r.raw == text && r.child == ZeroElement
  {
    Content(Raw, ZeroElement, text)
  }

  /** `input` is void and already applied to no children. */
  function Input(attrs: seq<Attribute>): (r: Content)
    ensures r.ctType == Node && r.child.tagName == "input" && r.child.elType == Void
    ensures r.child.attrs == attrs && r.child.contents == []
  {
    Tag("input", Void, attrs, [])
  }

  /** The non-void tag catalog: each builds the element of its tag name. */
  function Button(attrs: seq<Attribute>, contents: seq<Content>): (r: Content)
    ensures r.ctType == Node && r.child.tagName == "button" && r.child.elType == NonVoid
    ensures r.child.attrs == attrs && r.child.contents == contents
  {
    Tag("button", NonVoid, attrs, contents)
  }

  function Script(attrs: seq<Attribute>, contents: seq<Content>): (r: Content)
    ensures r.ctType == Node && r.child.tagName == "script" && r.child.elType == NonVoid
    ensures r.child.attrs == attrs && r.child.contents == contents
  {
    Tag("script", NonVoid, attrs, contents)
  }

  function Title(attrs: seq<Attribute>, contents: seq<Content>): (r: Content)
    ensures r.ctType == Node && r.child.tagName == "title" && r.child.elType == NonVoid
    ensures r.child.attrs == attrs && r.child.contents == contents
  {
    Tag("title", NonVoid, attrs, contents)
  }

  function Head(attrs: seq<Attribute>, contents: seq<Content>): (r: Content)
    ensures r.ctType == Node && r.child.tagName == "head" && r.child.elType == NonVoid
    ensures r.child.attrs == attrs && r.child.contents == contents
  {
    Tag("head", NonVoid, attrs, contents)
  }

  function Div(attrs: seq<Attribute>, contents: seq<Content>): (r: Content)
    ensures r.ctType == Node && r.child.tagName == "div" && r.child.elType == NonVoid
    ensures r.child.attrs == attrs && r.child.contents == contents
  {
    Tag("div", NonVoid, attrs, contents)
  }

  function Body(attrs: seq<Attribute>, contents: seq<Content>): (r: Content)
    ensures r.ctType == Node && r.child.tagName == "body" && r.child.elType == NonVoid
    ensures r.child.attrs == attrs && r.child.contents == contents
  {
    Tag("body", NonVoid, attrs, contents)
  }

  function Html(attrs: seq<Attribute>, contents: seq<Content>): (r: Content)
    ensures r.ctType == Node && r.child.tagName == "html" && r.child.elType == NonVoid
    ensures r.child.attrs == attrs && r.child.contents == contents
  {
    Tag("html", NonVoid, attrs, contents)
  }

  function Form(attrs: seq<Attribute>, contents: seq<Content>): (r: Content)
    ensures r.ctType == Node && r.child.tagName == "form" && r.child.elType == NonVoid
    ensures r.child.attrs == attrs && r.child.contents == contents
  {
    Tag("form", NonVoid, attrs, contents)
  }

  function Label(attrs: seq<Attribute>, contents: seq<Content>): (r: Content)
    ensures r.ctType == Node && r.child.tagName == "label" && r.child.elType == NonVoid
    ensures r.child.attrs == attrs && r.child.contents == contents
  {
    Tag("label", NonVoid, attrs, contents)
  }

  function Table(attrs: seq<Attribute>, contents: seq<Content>): (r: Content)
    ensures r.ctType == Node && r.child.tagName == "table" && r.child.elType == NonVoid
    ensures r.child.attrs == attrs && r.child.contents == contents
  {
    Tag("table", NonVoid, attrs, contents)
  }

  function Th(attrs: seq<Attribute>, contents: seq<Content>): (r: Content)
    ensures r.ctType == Node && r.child.tagName == "th" && r.child.elType == NonVoid
    ensures r.child.attrs == attrs && r.child.contents == contents
  {
    Tag("th", NonVoid, attrs, contents)
  }

  function Tr(attrs: seq<Attribute>, contents: seq<Content>): (r: Content)
    ensures r.ctType == Node && r.child.tagName == "tr" && r.child.elType == NonVoid
    ensures r.child.attrs == attrs && r.child.contents == contents
  {
    Tag("tr", NonVoid, attrs, contents)
  }

  function Td(attrs: seq<Attribute>, contents: seq<Content>): (r: Content)
    ensures r.ctType == Node && r.child.tagName == "td" && r.child.elType == NonVoid
    ensures r.child.attrs == attrs && r.child.contents == contents
  {
    Tag("td", NonVoid, attrs, contents)
  }
}
