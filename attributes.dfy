/** HTML attributes: a name, a list of values and a kind that decides how they render. */
module Attributes {
  import opened Text

  /** The kind of an attribute. The source's kind is a string type with three named
      values; `OtherKind` stands for every other string, the zero value "" among them.
      `OtherKind` is meant only for labels other than "none", "single" and "double-quoted":
      the source would treat a converted `"single"` as `Single`, so a named label is
      always written as its named variant, never as `OtherKind`. */
  datatype AttributeType = None | Single | DoubleQuoted | OtherKind(kind: string)

  datatype Attribute = Attribute(name: string, values: seq<string>, attrType: AttributeType)

  /** What `String()` returns: `name="v1 v2 ... vn"` for a double-quoted attribute,
      the bare name for a single one (its values are ignored), nothing otherwise. */
  function Rendered(a: Attribute): string {
    match a.attrType
    case DoubleQuoted => a.name + "=\"" + Join(a.values) + "\""
    case Single => a.name
    case _ => ""
  }

  /** `HTMLAttribute.String`: appends each value and a space, then trims one trailing space. */
  method String(a: Attribute) returns (s: string)
    ensures s == Rendered(a)
  {
    match a.attrType
    case DoubleQuoted =>
      var st := "";
      for i := 0 to |a.values|
        invariant i == 0 ==> st == ""
        invariant i > 0 ==> st == Join(a.values[..i]) + " "
      {
        if i > 0 {
          JoinSnoc(a.values[..i], a.values[i]);
        }
        assert a.values[..i + 1] == a.values[..i] + [a.values[i]];
        st := st + a.values[i] + " ";
      }
      assert a.values[..|a.values|] == a.values;
      s := a.name + "=\"" + TrimSuffix(st, " ") + "\"";
    case Single =>
      s := a.name;
    case None =>
      s := "";
    case OtherKind(_) =>
      s := "";
  }

  /** The primitive constructor every other attribute constructor goes through. */
  function Attr(name: string, attrType: AttributeType, values: seq<string>): (a: Attribute)
    ensures a.name == name && a.values == values && a.attrType == attrType
  {
    Attribute(name, values, attrType)
  }

  function ClassNames(values: seq<string>): (a: Attribute)
    ensures a.name == "class" && a.values == values && a.attrType == DoubleQuoted
    ensures Rendered(a) == "class=\"" + Join(values) + "\""
  {
    Attr("class", DoubleQuoted, values)
  }

  function PlaceHolder(value: string): (a: Attribute)
    ensures a.name == "placeholder" && a.values == [value] && a.attrType == DoubleQuoted
    ensures Rendered(a) == "placeholder=\"" + value + "\""
  {
    Attr("placeholder", DoubleQuoted, [value])
  }

  function Id(values: seq<string>): (a: Attribute)
    ensures a.name == "id" && a.values == values && a.attrType == DoubleQuoted
    ensures Rendered(a) == "id=\"" + Join(values) + "\""
  {
    Attr("id", DoubleQuoted, values)
  }

  function Name(values: seq<string>): (a: Attribute)
    ensures a.name == "name" && a.values == values && a.attrType == DoubleQuoted
    ensures Rendered(a) == "name=\"" + Join(values) + "\""
  {
    Attr("name", DoubleQuoted, values)
  }

  function Lang(values: seq<string>): (a: Attribute)
    ensures a.name == "lang" && a.values == values && a.attrType == DoubleQuoted
    ensures Rendered(a) == "lang=\"" + Join(values) + "\""
  {
    Attr("lang", DoubleQuoted, values)
  }

  function Type(values: seq<string>): (a: Attribute)
    ensures a.name == "type" && a.values == values && a.attrType == DoubleQuoted
    ensures Rendered(a) == "type=\"" + Join(values) + "\""
  {
    Attr("type", DoubleQuoted, values)
  }

  function Value(values: seq<string>): (a: Attribute)
    ensures a.name == "value" && a.values == values && a.attrType == DoubleQuoted
    ensures Rendered(a) == "value=\"" + Join(values) + "\""
  {
    Attr("value", DoubleQuoted, values)
  }

  function Src(values: seq<string>): (a: Attribute)
    ensures a.name == "src" && a.values == values && a.attrType == DoubleQuoted
    ensures Rendered(a) == "src=\"" + Join(values) + "\""
  {
    Attr("src", DoubleQuoted, values)
  }

  function Defer(): (a: Attribute)
    ensures a.name == "defer" && a.values == [] && a.attrType == Single && Rendered(a) == "defer"
  {
    Attr("defer", Single, [])
  }

  function Checked(): (a: Attribute)
    ensures a.name == "checked" && a.values == [] && a.attrType == Single && Rendered(a) == "checked"
  {
    Attr("checked", Single, [])
  }

  function Required(): (a: Attribute)
    ensures a.name == "required" && a.values == [] && a.attrType == Single && Rendered(a) == "required"
  {
    Attr("required", Single, [])
  }

  /** A single attribute that keeps its values but never renders them. */
  function Action(values: seq<string>): (a: Attribute)
    ensures a.name == "action" && a.values == values && a.attrType == Single && Rendered(a) == "action"
  {
    Attr("action", Single, values)
  }

  /** A single attribute that keeps its values but never renders them. */
  function Method(values: seq<string>): (a: Attribute)
    ensures a.name == "method" && a.values == values && a.attrType == Single && Rendered(a) == "method"
  {
    Attr("method", Single, values)
  }

  /** `checked` when the flag is set, otherwise a nameless `None` attribute that renders nothing. */
  function IsChecked(check: bool): (a: Attribute)
    ensures check ==> a == Checked()
    ensures !check ==> a.name == "" && a.values == [] && a.attrType == None
    ensures Rendered(a) == (if check then "checked" else "")
  {
    if check then Checked() else Attribute("", [], None)
  }
}
