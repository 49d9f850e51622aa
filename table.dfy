/** The documents the library's own test table expects, derived from the model. */
module TestTable {
  import opened Text
  import opened Attributes
  import opened Merge
  import opened Content
  import opened Config
  import opened Render
  import opened Htmx

  /** Indentation off, as in every row of the table. */
  const Plain := Indentation(false, 0)

  // ---------------------------------------------------------------------------
  // Shapes the rows share

  predicate EndsClean(s: string) {
    |s| > 0 && s[|s| - 1] != ' '
  }

  lemma BlockOfNone()
    ensures Block([]) == ""
  {
    assert Keys([]) == [];
    assert Merged([]) == [];
  }

  lemma BlockOfOne(a: Attribute)
    requires EndsClean(Rendered(a))
    ensures Block([a]) == " " + Rendered(a)
  {
    MergeDistinctIsIdentity([a]);
    assert [a][..0] == [];
    var sp := Spaced([a]);
    assert sp == Spaced([a][..0]) + " " + Rendered(a);
    assert sp == " " + Rendered(a);
    assert sp[|sp| - 1] != ' ';
  }

  lemma BlockOfTwo(a: Attribute, b: Attribute)
    requires a.name != b.name && EndsClean(Rendered(b))
    ensures Block([a, b]) == " " + Rendered(a) + " " + Rendered(b)
  {
    MergeDistinctIsIdentity([a, b]);
    assert [a, b][..1] == [a];
    assert [a][..0] == [];
    assert Spaced([a]) == Spaced([a][..0]) + " " + Rendered(a);
    var sp := Spaced([a, b]);
    assert sp == Spaced([a, b][..1]) + " " + Rendered(b);
    assert sp == " " + Rendered(a) + " " + Rendered(b);
    assert sp[|sp| - 1] != ' ';
  }

  /** Without indentation a non-void element is its opening tag, its children, its closing tag. */
  lemma PlainMarkup(e: Element, depth: int)
    requires e.elType != Void
    ensures Markup(Plain, e, depth) == OpenTag(e) + ChildrenMarkup(Plain, e, 0, depth) + CloseTag(e)
  {
  }

  // ---------------------------------------------------------------------------
  // The rows

  /** `Html(Lang("en"))()`: the doctype comes first. */
  lemma EmptyHtmlDocument(lang: string)
    ensures Document(Plain, Html([Lang([lang])], []).child) == "<!DOCTYPE html><html lang=\"" + lang + "\"></html>"
  {
    var a := Lang([lang]);
    BlockOfOne(a);
    var e := Html([a], []).child;
    ChildlessIgnoresIndentation(Plain, Plain, e, 1);
    var t := "<" + "html";
    var p := t + " " + "lang=\"";
    var q := "\"" + "></" + "html" + ">";
    // Regroup the opening tag, then the doctype, one concatenation at a time.
    Associative(t, " ", "lang=\"" + lang + "\"");
    Associative(t + " ", "lang=\"" + lang, "\"");
    Associative(t + " ", "lang=\"", lang);
    Associative(p + lang, "\"", "></");
    Associative(p + lang, "\"" + "></", "html");
    Associative(p + lang, "\"" + "></" + "html", ">");
    assert Markup(Plain, e, 1) == p + lang + q;
    Associative(Doctype, p + lang, q);
    Associative(Doctype, p, lang);
    EmptyHtmlText();
  }

  /** `Div(ClassNames("main", "container"))(Div()())`. */
  lemma DivWithClassNames(c1: string, c2: string)
    ensures Document(Plain, Div([ClassNames([c1, c2])], [Div([], [])]).child) ==
      "<div class=\"" + c1 + " " + c2 + "\"><div></div></div>"
  {
    var a := ClassNames([c1, c2]);
    assert Join([c1, c2]) == c1 + " " + c2 by {
      assert [c1, c2][1..] == [c2];
    }
    BlockOfOne(a);
    BlockOfNone();
    var inner := Div([], []).child;
    var e := Div([a], [Div([], [])]).child;
    PlainMarkup(inner, 2);
    PlainMarkup(e, 1);
    var m := "<" + "div" + "" + ">" + "" + ("</" + "div" + ">");
    assert Markup(Plain, inner, 2) == m;
    assert ChildrenMarkup(Plain, e, 0, 1) == m + "";
    assert Markup(Plain, e, 1) == "<" + "div" + (" " + ("class=\"" + (c1 + " " + c2) + "\"")) + ">" + (m + "") + ("</" + "div" + ">");
    DivWithClassNamesText(c1, c2);
  }

  /** `Script(Defer())()`: an attribute without a value renders as its bare name. */
  lemma ScriptDefer()
    ensures Document(Plain, Script([Defer()], []).child) == "<script defer></script>"
  {
    var e := Script([Defer()], []).child;
    BlockOfOne(Defer());
    PlainMarkup(e, 1);
    assert Markup(Plain, e, 1) == "<" + "script" + (" " + "defer") + ">" + "" + ("</" + "script" + ">");
    ScriptDeferText();
  }

  /** `Script(Defer(), Src("./index.js"))()`. */
  lemma ScriptDeferSrc(src: string)
    ensures Document(Plain, Script([Defer(), Src([src])], []).child) == "<script defer src=\"" + src + "\"></script>"
  {
    var e := Script([Defer(), Src([src])], []).child;
    BlockOfTwo(Defer(), Src([src]));
    PlainMarkup(e, 1);
    assert Markup(Plain, e, 1) == "<" + "script" + (" " + "defer" + " " + ("src=\"" + src + "\"")) + ">" + "" + ("</" + "script" + ">");
    ScriptDeferSrcText(src);
  }

  /** `Input(Checked())`: a void element closes itself. */
  lemma InputChecked()
    ensures Document(Plain, Input([Checked()]).child) == "<input checked/>"
  {
    BlockOfOne(Checked());
    assert Markup(Plain, Input([Checked()]).child, 1) == "<" + "input" + (" " + "checked") + "/>";
    InputCheckedText();
  }

  /** `Script(Src("index.js"))()`. */
  lemma ScriptSrc(src: string)
    ensures Document(Plain, Script([Src([src])], []).child) == "<script src=\"" + src + "\"></script>"
  {
    var e := Script([Src([src])], []).child;
    BlockOfOne(Src([src]));
    PlainMarkup(e, 1);
    assert Markup(Plain, e, 1) == "<" + "script" + (" " + ("src=\"" + src + "\"")) + ">" + "" + ("</" + "script" + ">");
    ScriptSrcText(src);
  }

  /** `Input(Type("text"))`. */
  lemma InputType(t: string)
    ensures Document(Plain, Input([Type([t])]).child) == "<input type=\"" + t + "\"/>"
  {
    BlockOfOne(Type([t]));
    assert Markup(Plain, Input([Type([t])]).child, 1) == "<" + "input" + (" " + ("type=\"" + t + "\"")) + "/>";
    InputTypeText(t);
  }

  /** `Div()(RawText("olá &#10; mundo"))`: raw text is written verbatim. */
  lemma DivWithText(text: string)
    ensures Document(Plain, Div([], [RawText(text)]).child) == "<div>" + text + "</div>"
  {
    var e := Div([], [RawText(text)]).child;
    BlockOfNone();
    PlainMarkup(e, 1);
    assert ChildrenMarkup(Plain, e, 0, 1) == text + "";
    assert Markup(Plain, e, 1) == "<" + "div" + "" + ">" + (text + "") + ("</" + "div" + ">");
    DivWithTextText(text);
  }

  /** `Div()(RawText("olá &#10; mundo"), Div()(), RawText("test"), Div()())`: children in order. */
  lemma DivWithMixedChildren(t1: string, t2: string)
    ensures Document(Plain, Div([], [RawText(t1), Div([], []), RawText(t2), Div([], [])]).child) ==
      "<div>" + t1 + "<div></div>" + t2 + "<div></div></div>"
  {
    var inner := Div([], []).child;
    var e := Div([], [RawText(t1), Div([], []), RawText(t2), Div([], [])]).child;
    BlockOfNone();
    PlainMarkup(inner, 2);
    PlainMarkup(e, 1);
    var m := "<" + "div" + "" + ">" + "" + ("</" + "div" + ">");
    assert Markup(Plain, inner, 2) == m;
    assert ChildrenMarkup(Plain, e, 3, 1) == m + "";
    assert ChildrenMarkup(Plain, e, 2, 1) == t2 + (m + "");
    assert ChildrenMarkup(Plain, e, 1, 1) == m + (t2 + (m + ""));
    assert ChildrenMarkup(Plain, e, 0, 1) == t1 + (m + (t2 + (m + "")));
    assert Markup(Plain, e, 1) == "<" + "div" + "" + ">" + (t1 + (m + (t2 + (m + "")))) + ("</" + "div" + ">");
    DivWithMixedChildrenText(t1, t2);
  }

  /** Repeated `class` attributes fold into one after the first `name`, values in order. */
  lemma ClassesMerge(n: string, c1: string, c2: string, c3: string)
    ensures Merged([Name([n]), ClassNames([c1]), ClassNames([c2]), ClassNames([c3])]) == [Name([n]), ClassNames([c1, c2, c3])]
  {
    var attrs := [Name([n]), ClassNames([c1]), ClassNames([c2]), ClassNames([c3])];
    assert attrs[..3][..2][..1][..0] == [];
    assert Keys(attrs[..3][..2][..1]) == ["name"];
    assert Keys(attrs[..3][..2]) == ["name", "class"];
    assert Keys(attrs[..3]) == ["name", "class"];
    assert Keys(attrs) == ["name", "class"];
    assert ValuesOf(attrs[1..][1..][1..][1..], "class") == [];
    assert ValuesOf(attrs[1..][1..][1..], "class") == [c3];
    assert ValuesOf(attrs[1..][1..], "class") == [c2, c3];
    assert ValuesOf(attrs[1..], "class") == [c1, c2, c3];
    assert ValuesOf(attrs, "class") == [c1, c2, c3];
    assert FirstIndex(attrs, "class") == 1;
    assert ValuesOf(attrs[1..][1..][1..][1..], "name") == [];
    assert ValuesOf(attrs[1..][1..][1..], "name") == [];
    assert ValuesOf(attrs[1..][1..], "name") == [];
    assert ValuesOf(attrs[1..], "name") == [];
    assert ValuesOf(attrs, "name") == [n];
    assert FirstIndex(attrs, "name") == 0;
  }

  /** `Input(Name("task"), ClassNames("text"), ClassNames("name"), ClassNames("editable"))`. */
  lemma InputWithMergedClasses(n: string, c1: string, c2: string, c3: string)
    ensures Document(Plain, Input([Name([n]), ClassNames([c1]), ClassNames([c2]), ClassNames([c3])]).child) ==
      "<input name=\"" + n + "\" class=\"" + c1 + " " + c2 + " " + c3 + "\"/>"
  {
    var attrs := [Name([n]), ClassNames([c1]), ClassNames([c2]), ClassNames([c3])];
    var ms := [Name([n]), ClassNames([c1, c2, c3])];
    ClassesMerge(n, c1, c2, c3);
    MergeIdempotent(attrs);
    assert Join([c1, c2, c3]) == c1 + " " + (c2 + " " + c3) by {
      assert [c1, c2, c3][1..] == [c2, c3];
      assert [c2, c3][1..] == [c3];
    }
    BlockOfTwo(Name([n]), ClassNames([c1, c2, c3]));
    assert Block(attrs) == " " + ("name=\"" + n + "\"") + " " + ("class=\"" + (c1 + " " + (c2 + " " + c3)) + "\"");
    assert Markup(Plain, Input(attrs).child, 1) ==
      "<" + "input" + (" " + ("name=\"" + n + "\"") + " " + ("class=\"" + (c1 + " " + (c2 + " " + c3)) + "\"")) + "/>";
    InputWithMergedClassesText(n, c1, c2, c3);
  }

  /** `Input(Checked(), HxOn("click", "console.log('hello')"))`. */
  lemma InputCheckedHxOn(event: string, expr: string)
    ensures Document(Plain, Input([Checked(), HxOn(event, expr)]).child) ==
      "<input checked hx-on:" + event + "=\"" + expr + "\"/>"
  {
    var h := HxOn(event, expr);
    assert h.name[0] == 'h';
    BlockOfTwo(Checked(), h);
    assert Markup(Plain, Input([Checked(), h]).child, 1) ==
      "<" + "input" + (" " + "checked" + " " + ("hx-on:" + event + "=\"" + expr + "\"")) + "/>";
    InputCheckedHxOnText(event, expr);
  }

  // ---------------------------------------------------------------------------
  // Behaviour beyond the table

  /** The row the table leaves disabled, `Input(Type("checkbox"), Required(), Attr("required", …))`:
      the two `required` attributes merge, the first one's kind wins, so the value of the
      second is dropped from the output. */
  lemma KindConflictFirstWins(t: string)
    ensures Merged([Type([t]), Required(), Attr("required", DoubleQuoted, ["required"])]) ==
      [Type([t]), Attribute("required", ["required"], Single)]
    ensures Document(Plain, Input([Type([t]), Required(), Attr("required", DoubleQuoted, ["required"])]).child) ==
      "<input type=\"" + t + "\" required/>"
  {
    var r := Attr("required", DoubleQuoted, ["required"]);
    var attrs := [Type([t]), Required(), r];
    assert attrs[..2][..1][..0] == [];
    assert Keys(attrs[..2][..1]) == ["type"];
    assert Keys(attrs[..2]) == ["type", "required"];
    assert Keys(attrs) == ["type", "required"];
    assert ValuesOf(attrs[1..][1..][1..], "required") == [];
    assert ValuesOf(attrs[1..][1..], "required") == ["required"];
    assert ValuesOf(attrs[1..], "required") == ["required"];
    assert ValuesOf(attrs, "required") == ["required"];
    assert FirstIndex(attrs, "required") == 1;
    assert ValuesOf(attrs[1..][1..][1..], "type") == [];
    assert ValuesOf(attrs[1..][1..], "type") == [];
    assert ValuesOf(attrs[1..], "type") == [];
    assert ValuesOf(attrs, "type") == [t];
    assert FirstIndex(attrs, "type") == 0;
    var q := Attribute("required", ["required"], Single);
    assert Merged(attrs) == [Type([t]), q];
    MergeIdempotent(attrs);
    BlockOfTwo(Type([t]), q);
    assert Join([t]) == t;
    assert Markup(Plain, Input(attrs).child, 1) == "<" + "input" + (" " + ("type=\"" + t + "\"") + " " + "required") + "/>";
    KindConflictText(t);
  }

  /** `IsChecked(false)` renders as nothing but still takes its separating space. */
  lemma UncheckedLeavesASpace(t: string)
    ensures Block([IsChecked(false), Type([t])]) == "  type=\"" + t + "\""
  {
    var a, b := IsChecked(false), Type([t]);
    BlockOfTwo(a, b);
    assert Join([t]) == t;
    assert Rendered(b) == "type=\"" + t + "\"";
    assert Block([a, b]) == " " + "" + " " + ("type=\"" + t + "\"");
    UncheckedLeavesASpaceText(t);
  }

  /** Last in the list, its space is the one trailing space that is trimmed. */
  lemma UncheckedLastIsTrimmed(t: string)
    ensures Block([Type([t]), IsChecked(false)]) == " type=\"" + t + "\""
  {
    var a, b := Type([t]), IsChecked(false);
    MergeDistinctIsIdentity([a, b]);
    assert [a, b][..1] == [a];
    assert [a][..0] == [];
    assert Spaced([a]) == " " + Rendered(a);
    var sp := Spaced([a, b]);
    assert sp == Spaced([a]) + " " + "";
    assert sp == " " + Rendered(a) + " ";
    assert EndsWith(sp, " ");
    assert Join([t]) == t;
  }

  /** The doctype belongs to the root only: an `html` element further down gets none. */
  lemma NestedHtmlWithoutDoctype()
    ensures Document(Plain, Div([], [Html([], [])]).child) == "<div><html></html></div>"
  {
    var inner := Html([], []).child;
    var e := Div([], [Html([], [])]).child;
    BlockOfNone();
    PlainMarkup(inner, 2);
    PlainMarkup(e, 1);
    var m := "<" + "html" + "" + ">" + "" + ("</" + "html" + ">");
    assert Markup(Plain, inner, 2) == m;
    assert ChildrenMarkup(Plain, e, 0, 1) == m + "";
    assert Markup(Plain, e, 1) == "<" + "div" + "" + ">" + (m + "") + ("</" + "div" + ">");
    NestedHtmlText();
  }

  /** With indentation at `level`, an opening tag with children is followed by a newline and
      depth × level spaces, and its closing tag preceded by a newline and one level less. */
  lemma IndentedNesting(level: uint8)
    ensures var r1, r2 := Repeat(" ", level), Repeat(" ", 2 * level);
      Document(Indentation(true, level), Div([], [Div([], [Div([], [])])]).child) ==
        "<div>\n" + r1 + "<div>\n" + r2 + "<div></div>\n" + r1 + "</div>\n</div>"
  {
    var ind := Indentation(true, level);
    var r1, r2 := Repeat(" ", level), Repeat(" ", 2 * level);
    var e3 := Div([], []).child;
    var e2 := Div([], [Div([], [])]).child;
    var e1 := Div([], [Div([], [Div([], [])])]).child;
    BlockOfNone();
    ChildlessIgnoresIndentation(ind, Plain, e3, 3);
    var m := "<" + "div" + "" + "></" + "div" + ">";
    assert Markup(ind, e3, 3) == m;
    assert OpenIndent(ind, 2) == "\n" + r2 && CloseIndent(ind, 2) == "\n" + r1;
    assert OpenIndent(ind, 1) == "\n" + r1 && CloseIndent(ind, 1) == "\n" + "";
    assert ChildrenMarkup(ind, e2, 0, 2) == m + "";
    var m2 := "<" + "div" + "" + ">" + ("\n" + r2) + (m + "") + ("\n" + r1) + ("</" + "div" + ">");
    assert Markup(ind, e2, 2) == m2;
    assert ChildrenMarkup(ind, e1, 0, 1) == m2 + "";
    assert Markup(ind, e1, 1) == "<" + "div" + "" + ">" + ("\n" + r1) + (m2 + "") + ("\n" + "") + ("</" + "div" + ">");
    IndentedNestingText(r1, r2);
  }

  /** `WithDefaultIndentation()` indents by four spaces per level. */
  lemma DefaultIndentationLevel()
    ensures Configured([WithDefaultIndentation()]).indent == Indentation(true, 4)
    ensures Repeat(" ", 4) == "    "
  {
    assert [WithDefaultIndentation()][..0] == [];
    assert Repeat(" ", 2) == Repeat(" ", 1) + " " == " " + " ";
    assert Repeat(" ", 4) == Repeat(" ", 3) + " " == Repeat(" ", 2) + " " + " ";
  }

  /** Building raw text directly serialises the zero element the content carries. */
  lemma RawTextRoot(text: string, ind: Indentation)
    ensures Document(ind, RawText(text).child) == "<></>"
  {
    var e := RawText(text).child;
    assert e == ZeroElement;
    BlockOfNone();
    ChildlessIgnoresIndentation(ind, Plain, e, 1);
    assert Markup(ind, e, 1) == "<" + "" + "" + "></" + "" + ">";
  }

  // ---------------------------------------------------------------------------
  // String regrouping

  // Each row above reduces the model to a nested concatenation of short literals and
  // parameters; the lemmas below regroup such a concatenation into the literal the row
  // states. They hold of strings alone, and proving them apart from the trees keeps each
  // proof small for the solver. They are proof plumbing with no counterpart in the library.

  lemma EmptyHtmlText()
    ensures Doctype + ("<" + "html" + " " + "lang=\"") == "<!DOCTYPE html><html lang=\""
    ensures "\"" + "></" + "html" + ">" == "\"></html>"
  {
  }

  lemma DivWithClassNamesText(c1: string, c2: string)
    ensures var m := "<" + "div" + "" + ">" + "" + ("</" + "div" + ">");
      "<" + "div" + (" " + ("class=\"" + (c1 + " " + c2) + "\"")) + ">" + (m + "") + ("</" + "div" + ">") ==
      "<div class=\"" + c1 + " " + c2 + "\"><div></div></div>"
  {
  }

  lemma ScriptDeferText()
    ensures "<" + "script" + (" " + "defer") + ">" + "" + ("</" + "script" + ">") == "<script defer></script>"
  {
  }

  lemma ScriptDeferSrcText(src: string)
    ensures "<" + "script" + (" " + "defer" + " " + ("src=\"" + src + "\"")) + ">" + "" + ("</" + "script" + ">") ==
      "<script defer src=\"" + src + "\"></script>"
  {
  }

  lemma InputCheckedText()
    ensures "<" + "input" + (" " + "checked") + "/>" == "<input checked/>"
  {
  }

  lemma ScriptSrcText(src: string)
    ensures "<" + "script" + (" " + ("src=\"" + src + "\"")) + ">" + "" + ("</" + "script" + ">") ==
      "<script src=\"" + src + "\"></script>"
  {
  }

  lemma InputTypeText(t: string)
    ensures "<" + "input" + (" " + ("type=\"" + t + "\"")) + "/>" == "<input type=\"" + t + "\"/>"
  {
  }

  lemma DivWithTextText(text: string)
    ensures "<" + "div" + "" + ">" + (text + "") + ("</" + "div" + ">") == "<div>" + text + "</div>"
  {
  }

  lemma DivWithMixedChildrenText(t1: string, t2: string)
    ensures var m := "<" + "div" + "" + ">" + "" + ("</" + "div" + ">");
      "<" + "div" + "" + ">" + (t1 + (m + (t2 + (m + "")))) + ("</" + "div" + ">") ==
      "<div>" + t1 + "<div></div>" + t2 + "<div></div></div>"
  {
  }

  lemma InputWithMergedClassesText(n: string, c1: string, c2: string, c3: string)
    ensures "<" + "input" + (" " + ("name=\"" + n + "\"") + " " + ("class=\"" + (c1 + " " + (c2 + " " + c3)) + "\"")) + "/>" ==
      "<input name=\"" + n + "\" class=\"" + c1 + " " + c2 + " " + c3 + "\"/>"
  {
  }

  lemma InputCheckedHxOnText(event: string, expr: string)
    ensures "<" + "input" + (" " + "checked" + " " + ("hx-on:" + event + "=\"" + expr + "\"")) + "/>" ==
      "<input checked hx-on:" + event + "=\"" + expr + "\"/>"
  {
  }

  lemma KindConflictText(t: string)
    ensures "<" + "input" + (" " + ("type=\"" + t + "\"") + " " + "required") + "/>" == "<input type=\"" + t + "\" required/>"
  {
  }

  lemma UncheckedLeavesASpaceText(t: string)
    ensures " " + "" + " " + ("type=\"" + t + "\"") == "  type=\"" + t + "\""
  {
  }

  lemma NestedHtmlText()
    ensures var m := "<" + "html" + "" + ">" + "" + ("</" + "html" + ">");
      "<" + "div" + "" + ">" + (m + "") + ("</" + "div" + ">") == "<div><html></html></div>"
  {
  }

  lemma IndentedNestingText(r1: string, r2: string)
    ensures var m := "<" + "div" + "" + "></" + "div" + ">";
      var m2 := "<" + "div" + "" + ">" + ("\n" + r2) + (m + "") + ("\n" + r1) + ("</" + "div" + ">");
      "<" + "div" + "" + ">" + ("\n" + r1) + (m2 + "") + ("\n" + "") + ("</" + "div" + ">") ==
        "<div>\n" + r1 + "<div>\n" + r2 + "<div></div>\n" + r1 + "</div>\n</div>"
  {
  }
}
