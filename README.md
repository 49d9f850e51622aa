# goml, modelled in Dafny

goml is a small Go library for HTML. Two parts do most of the work:

- **Builder functions** compose a content tree. The tag catalog (`Div`, `Script`, `Input`, …), `RawText` and attribute constructors such as `ClassNames`, `Checked`, `IsChecked` and the htmx `Hx*` attributes belong here.
- **`buildDOM`** serialises the tree to an `io.Writer`.

The central writer is `parseElement`, which does four things:

- It merges the attributes of an element that share a name.
- It renders the merged attributes into one attribute block.
- It writes `<tag attrs/>` for a void element. For any other element it writes `<tag attrs>`, the children in order and `</tag>`. When indentation is enabled and there are children, it writes indentation after the opening tag and before the closing tag.
- It stops at the first failed write other than an indentation write, whose error it ignores, and returns a running byte count.

`buildDOM` does three things:

- It applies the options: writer, logger, default indentation, explicit indentation.
- It fails without a writer.
- It writes `<!DOCTYPE html>` first when the root is an `html` element.

Module by module:

- `Text` (text.dfy) holds the string helpers the library relies on:
  - `strings.TrimSuffix`;
  - the space-joined value list;
  - the `putNChar` closure, as a method with a counted loop.
- `Attributes` (attributes.dfy) holds:
  - the attribute value and its three kinds;
  - `String()` as a loop-based method proved equal to the reference rendering `Rendered`;
  - `Attr` and every attribute constructor, and `IsChecked`.
- `Merge` (merge.dfy) holds the merge and the attribute block, in two forms:
  - as reference functions: `Keys`, `Entry`, `Merged` and `Block`;
  - as the imperative scan over a key list and a map, which is proved to compute them.

  The lemmas prove the merge's promises:
  - names are kept in first-occurrence order, each once;
  - values are concatenated in order;
  - the first kind is kept;
  - distinct names are left alone;
  - merging is idempotent;
  - at most one trailing space is trimmed.
- `Content` (content.dfy) holds the element and content values, `Tag`, `RawText`, `Input` and the tag catalog, each stating the content it builds.
- `Htmx` (htmx.dfy) holds the `Hx*` constructors and what merging does to `hx-on:` handlers.
- `Sinks` (sink.dfy) models the writer: a class holding what was accepted and how many writes were made, with a fixed failure point. The failure point is either "never", or "write number *i* accepts at most *k* bytes and reports an error".
- `Config` (config.dfy) holds the build configuration, the options, the `uint8` truncation of the indentation level and the option loop.
- `Render` (render.dfy) holds `Markup` and `Document`: the exact text written for a renderable tree when no write fails. A tree is renderable when every child the serializer visits is an element or raw text; at a child of any other content type the serializer stops with an error (go_ml.go:204-205), so `Markup`, which renders such a child as nothing, describes only renderable trees. The builders make only renderable trees (`TagRenderable`).
- `Serializer` (serializer.dfy) holds three things:
  - `ElementRun`, a function giving the exact effect of `parseElement` on any writer: the data, the number of writes, the count and the error;
  - the imperative `ParseElement`, `ParseChildren`, `ParseChild`, `BuildDOM` and `BuildContentDOM`, each proved to have exactly that effect;
  - the lemmas relating runs to `Markup`: the text written, the byte accounting, stopping at the first failure, and the ignored indentation errors.
- `TestTable` (table.dfy) derives from the model the outputs that the library's test table (go_ml_test.go) expects. The row that the test file leaves commented out is also derived, plus a few behaviours the table does not exercise.

## Model

| member | source | states |
|---|---|---|
| Text.TrimSuffix | go_ml.go:168-171 | removes exactly one copy of the suffix when the string ends with it, otherwise returns it unchanged; the result is always a prefix |
| Text.JoinSnoc | go_ml.go:243-247 | one more value extends a non-empty space-joined list by one space and that value |
| Text.JoinAppend | go_ml.go:156-165 | the join of two non-empty value lists is their joins separated by exactly one space |
| Text.PutNChar | go_ml.go:141-146 | the counted loop appends `ch` to `s` exactly `n` times (none when `n` is not positive) |
| Text.RepeatChar | go_ml.go:148-151 | the indentation padding is exactly `n` copies of the character |
| Attributes.String | go_ml.go:240-255 | appending each value plus a space and trimming one space gives `name="v1 … vn"` for double-quoted (`name=""` with no values), the bare name for single, nothing for none or any other kind |
| Attributes.Attr | go_ml.go:258-260 | the attribute carries exactly the given name, values and kind |
| Attributes.ClassNames | go_ml.go:262-264 | an attribute named `class`, of the double-quoted kind, carrying exactly the given values, which it renders space-joined inside quotes |
| Attributes.PlaceHolder | go_ml.go:266-268 | an attribute named `placeholder`, of the double-quoted kind, whose one value is the given text, rendered inside quotes |
| Attributes.Id | go_ml.go:270-272 | an attribute named `id`, of the double-quoted kind, carrying exactly the given values, which it renders space-joined inside quotes |
| Attributes.Name | go_ml.go:274-276 | an attribute named `name`, of the double-quoted kind, carrying exactly the given values, which it renders space-joined inside quotes |
| Attributes.Lang | go_ml.go:278-280 | an attribute named `lang`, of the double-quoted kind, carrying exactly the given values, which it renders space-joined inside quotes |
| Attributes.Type | go_ml.go:282-284 | an attribute named `type`, of the double-quoted kind, carrying exactly the given values, which it renders space-joined inside quotes |
| Attributes.Value | go_ml.go:286-288 | an attribute named `value`, of the double-quoted kind, carrying exactly the given values, which it renders space-joined inside quotes |
| Attributes.Src | go_ml.go:290-292 | an attribute named `src`, of the double-quoted kind, carrying exactly the given values, which it renders space-joined inside quotes |
| Attributes.Defer | go_ml.go:294-296 | an attribute named `defer`, of the single kind, with no values, rendering as the bare name |
| Attributes.Checked | go_ml.go:298-300 | an attribute named `checked`, of the single kind, with no values, rendering as the bare name |
| Attributes.Required | go_ml.go:302-304 | an attribute named `required`, of the single kind, with no values, rendering as the bare name |
| Attributes.Action | go_ml.go:306-308 | an attribute named `action`, of the single kind, that carries the given values but renders only as the bare name |
| Attributes.Method | go_ml.go:310-312 | an attribute named `method`, of the single kind, that carries the given values but renders only as the bare name |
| Attributes.IsChecked | go_ml.go:315-320 | `checked` when the flag is set, otherwise a nameless, valueless `None` attribute that renders as nothing |
| Merge.FirstIndex | go_ml.go:157-164 | the position of the first attribute with the name, or the length when there is none; nothing before it has that name |
| Merge.FirstIndexSnoc | go_ml.go:157-164 | appending an attribute leaves an existing first occurrence where it was and gives a new name its first occurrence at the end |
| Merge.ValuesOfSnoc | go_ml.go:157-161 | appending an attribute appends its values to the values gathered for its name and to no other |
| Merge.EntrySnoc | go_ml.go:157-164 | appending an attribute extends an existing entry's values, keeping its kind, and makes a new name's entry that attribute itself |
| Merge.ValuesAbsent | go_ml.go:157-164 | a name that does not occur gathers no values |
| Merge.KeysAreFirstOccurrences | go_ml.go:156-165 | the key list holds exactly the names that occur, ordered by their first occurrence |
| Merge.KeysDistinct | go_ml.go:156-165 | no name appears twice in the key list |
| Merge.MergedEntries | go_ml.go:156-170 | the merged list has one entry per key, in key order, carrying that name, all its values in declaration order and the kind of its first occurrence |
| Merge.KeysOfDistinct | go_ml.go:156-165 | when all names differ the key list is the names in order |
| Merge.ValuesOfDistinct | go_ml.go:156-165 | when all names differ each name's values are that attribute's own values |
| Merge.MergeDistinctIsIdentity | go_ml.go:156-165 | when all names differ the merge changes nothing |
| Merge.MergeIdempotent | go_ml.go:156-171 | merging a merged list changes nothing, and the attribute block of the merged list is that of the original |
| Merge.BlockTrim | go_ml.go:168-171 | the block is the spaced list with at most one trailing space removed, and nothing is removed when the last merged attribute is double-quoted |
| Merge.SameNameMerges | go_ml.go:156-171 | two attributes of one name merge into one holding both value lists in order with the first kind; double-quoted, the block is one space and that merged attribute, and when both value lists are non-empty its value is the two joins separated by one space |
| Merge.ScanSeen | go_ml.go:158-160 | a repeated name adds its values to the stored entry, and the map keeps matching the reference entries for the scanned prefix |
| Merge.ScanNew | go_ml.go:161-163 | a new name is appended to the keys and stored as is, and the map keeps matching the reference entries for the scanned prefix |
| Merge.MergeAttributes | go_ml.go:156-165 | the loop builds the key list in first-occurrence order and a map holding exactly the merged entry of each key |
| Merge.AttributeBlock | go_ml.go:156-171 | the merge and the `+= " " + String()` loop build exactly the block of the merged attributes with one trailing space trimmed |
| Sinks.AttemptWrites | go_ml.go:135-139 | a write is one more call, appends a prefix of its input and reports that prefix's length; it fails exactly at the failure point and is whole otherwise |
| Sinks.Sink.Write | go_ml.go:135-139 | one write changes the writer as the failure point dictates and reports the accepted byte count and whether it failed |
| Config.ToUint8 | go_ml.go:86-91 | `uint8(level)` is the level for 0..255 and otherwise agrees with it modulo 256 |
| Config.NoWriterOption | go_ml.go:65-70 | without a writer option the configured writer is missing |
| Config.LastWriterWins | go_ml.go:105-107 | the writer is the one named by the last writer option |
| Config.NoIndentationOption | go_ml.go:78-91 | without an indentation option indentation stays off at level 0 |
| Config.LastIndentationWins | go_ml.go:78-91 | the last indentation option turns indentation on, at level 4 for the default one, else at its level truncated to eight bits |
| Config.ApplyOptions | go_ml.go:102-107 | the option loop yields the configuration of applying every option in order to the default |
| Content.Tag | go_ml.go:325-337 | the built content is an element child whose element has exactly the given tag name, element type, attributes and children |
| Content.RawText | go_ml.go:339-341 | the built content is a raw-text child holding exactly the text, its element payload the zero element |
| Content.Input | go_ml.go:343-345 | the built content is a void `input` element child with the given attributes and no children |
| Content.Button | go_ml.go:347-349 | the built content is a non-void `button` element child with exactly the given attributes and children |
| Content.Script | go_ml.go:351-353 | the built content is a non-void `script` element child with exactly the given attributes and children |
| Content.Title | go_ml.go:355-357 | the built content is a non-void `title` element child with exactly the given attributes and children |
| Content.Head | go_ml.go:359-361 | the built content is a non-void `head` element child with exactly the given attributes and children |
| Content.Div | go_ml.go:363-365 | the built content is a non-void `div` element child with exactly the given attributes and children |
| Content.Body | go_ml.go:367-369 | the built content is a non-void `body` element child with exactly the given attributes and children |
| Content.Html | go_ml.go:371-373 | the built content is a non-void `html` element child with exactly the given attributes and children |
| Content.Form | go_ml.go:375-377 | the built content is a non-void `form` element child with exactly the given attributes and children |
| Content.Label | go_ml.go:379-381 | the built content is a non-void `label` element child with exactly the given attributes and children |
| Content.Table | go_ml.go:383-385 | the built content is a non-void `table` element child with exactly the given attributes and children |
| Content.Th | go_ml.go:387-389 | the built content is a non-void `th` element child with exactly the given attributes and children |
| Content.Tr | go_ml.go:391-393 | the built content is a non-void `tr` element child with exactly the given attributes and children |
| Content.Td | go_ml.go:395-397 | the built content is a non-void `td` element child with exactly the given attributes and children |
| Render.UnindentedIgnoresDepth | go_ml.go:148-151 | with indentation off the text of an element does not depend on its depth |
| Render.ChildrenUnindentedIgnoreDepth | go_ml.go:192-207 | with indentation off the text of a child list does not depend on depth |
| Render.ChildlessIgnoresIndentation | go_ml.go:187-189 | an element without children is written the same under any indentation setting, as `<tag attrs></tag>` when not void |
| Render.VoidIgnoresChildren | go_ml.go:175-180 | a void element is `<tag attrs/>` whatever children it holds |
| Render.ChildrenRenderableEvery | go_ml.go:192-206 | the child loop meets no unrecognised content exactly when every child from the position on is raw text or a renderable element |
| Render.TagRenderable | go_ml.go:325-337 | a built tag is renderable exactly when it is void or every child given to it is raw text or a renderable element |
| Render.RawTextVisitable | go_ml.go:339-341 | built raw text is always a child the serializer can write, holding the given text |
| Render.InputMarkup | go_ml.go:343-345 | `Input(attrs)` is renderable and renders as `<input attrs/>` at any depth and under any indentation |
| Serializer.RunWritesMarkup | go_ml.go:129-216 | on a writer that never fails, a renderable element appends exactly its markup, counts all of it and reports no error |
| Serializer.ChildrenRunWritesChildren | go_ml.go:192-207 | on a writer that never fails, the child loop appends exactly the children's markup and counts all of it |
| Serializer.NodeWritesMarkup | go_ml.go:194-199 | the child-loop step at an element child appends exactly that child's markup and then the rest |
| Serializer.RawWritesText | go_ml.go:200-203 | the child-loop step at a raw child appends exactly its text and then the rest |
| Serializer.AfterChildrenNever | go_ml.go:209-216 | on a writer that never fails, the closing indentation and tag are appended and counted |
| Serializer.RunAccounting | go_ml.go:129-216 | nothing written is taken back, the write count only grows, the count never exceeds the bytes written and equals them when there is no error |
| Serializer.OpenedAccounting | go_ml.go:182-216 | the same accounting for a non-void element |
| Serializer.ChildrenRunAccounting | go_ml.go:192-207 | the same accounting for the child loop |
| Serializer.AfterChildrenAccounting | go_ml.go:209-216 | the closing writes keep the accounting of the element |
| Serializer.IndentWriteGrows | go_ml.go:187-189 | an indentation write appends what it counts, error or not |
| Serializer.FailureStopsWriting | go_ml.go:129-216 | when a run reports a write failure, the failing write was the last write made |
| Serializer.ChildrenFailureStopsWriting | go_ml.go:192-207 | the same for the child loop |
| Serializer.VoidWritesOnce | go_ml.go:175-180 | a void element is exactly one write, and its children never matter |
| Serializer.PassedRun | go_ml.go:135-139 | once the failing write is behind the writer, a run is exactly the run on a writer that never fails |
| Serializer.PassedChildren | go_ml.go:192-207 | the same for the child loop |
| Serializer.IndentationErrorIgnored | go_ml.go:187-189 | when the opening indentation write fails, the element is still written whole, with only a prefix of that indentation, fully counted and without error |
| Serializer.CloseIndentationErrorIgnored | go_ml.go:209-216 | when the indentation write before the closing tag is the one that fails, the element is still written whole but for the tail of that indentation, fully counted and without error |
| Serializer.AheadRun | go_ml.go:135-139 | a run whose writes all come before the failure point is exactly the run on a writer that never fails |
| Serializer.AheadChildren | go_ml.go:192-207 | the same for the child loop |
| Serializer.RunCountsExactly | go_ml.go:129-216 | on any writer the count is every byte written except those of a failed child element: failed opening tags, raw texts and closing tags count the bytes they got through, an element without element children counts all it wrote, and nothing is left out when there is no error |
| Serializer.ChildrenRunCountsExactly | go_ml.go:192-207 | the same exact accounting for the child loop |
| Serializer.ChildFailureUncounted | go_ml.go:194-198 | for any element and any position, when the child element there fails the loop ends in the child's final writer state and error with a count of 0, although the writer kept every byte the child wrote, at least as many as the child counted |
| Serializer.FirstChildFailureUncounted | go_ml.go:182-198 | for any element whose first child is an element that fails, the element's count is exactly the bytes of its opening tag and indentation, while the writer also holds everything the child wrote |
| Serializer.ChildFailureExample | go_ml.go:194-198 | one exhibited case: `<div><div></div>` reaches the writer, the inner closing tag on the failing write, and the count is 5 |
| Serializer.UnrecognizedChildReported | go_ml.go:204-205 | a child of an unrecognised content type ends the loop with no write and no count, and the error message names the content type |
| Serializer.DocumentWritten | go_ml.go:101-127 | on a writer that never fails, the whole run appends exactly the document and reports no error |
| Serializer.ParseElement | go_ml.go:129-216 | the method changes the writer, returns the count and returns the error exactly as the run specification of the element says |
| Serializer.ParseChildren | go_ml.go:192-207 | the child loop changes the writer and returns count and error exactly as the child-loop specification says |
| Serializer.ParseChild | go_ml.go:193-206 | one pass of the loop either continues with its count added or stops with the specified count and error, including the unrecognised content type |
| Serializer.BuildDOM | go_ml.go:101-127 | fails with the missing-writer error when no writer is configured; otherwise the writer ends exactly as the build run says; on a writer that never fails it holds the document and there is no error |
| Serializer.BuildContentDOM | go_ml.go:97-99 | building a content builds its element payload, whatever the content's type |
| Htmx.HxPost | htmx.go:4-6 | a double-quoted `hx-post` attribute whose one value, the URL, is rendered verbatim |
| Htmx.HxPut | htmx.go:8-10 | a double-quoted `hx-put` attribute whose one value, the URL, is rendered verbatim |
| Htmx.HxDelete | htmx.go:12-14 | a double-quoted `hx-delete` attribute whose one value, the URL, is rendered verbatim |
| Htmx.HxTarget | htmx.go:16-18 | a double-quoted `hx-target` attribute whose one value is rendered verbatim |
| Htmx.HxSwap | htmx.go:20-22 | a double-quoted `hx-swap` attribute whose one value is rendered verbatim |
| Htmx.HxOn | htmx.go:25-27 | a double-quoted `hx-on:<event>` attribute whose one value, the handler, is rendered verbatim |
| Htmx.HandlersForOneEventMerge | htmx.go:25-27 | two handlers for the same event merge into one attribute holding both, rendered like a single handler of the two space-joined |
| Htmx.HandlersForTwoEventsStayApart | htmx.go:25-27 | handlers for different events stay two attributes, in order |
| TestTable.BlockOfNone | go_ml.go:168-171 | no attributes give an empty block |
| TestTable.BlockOfOne | go_ml.go:168-171 | one attribute whose rendering is non-empty and does not end in a space gives a space and its rendering |
| TestTable.BlockOfTwo | go_ml.go:168-171 | two differently named attributes, the second rendering non-empty and not ending in a space, give a space before each rendering |
| TestTable.PlainMarkup | go_ml.go:182-216 | without indentation a non-void element is its opening tag, its children and its closing tag |
| TestTable.EmptyHtmlDocument | go_ml_test.go:16-20 | `Html(Lang(l))()` builds `<!DOCTYPE html><html lang="l"></html>` |
| TestTable.DivWithClassNames | go_ml_test.go:21-25 | `Div(ClassNames(a, b))(Div()())` builds `<div class="a b"><div></div></div>` |
| TestTable.ScriptDefer | go_ml_test.go:26-30 | `Script(Defer())()` builds `<script defer></script>` |
| TestTable.ScriptDeferSrc | go_ml_test.go:31-35 | `Script(Defer(), Src(s))()` builds `<script defer src="s"></script>` |
| TestTable.InputChecked | go_ml_test.go:36-40 | `Input(Checked())` builds `<input checked/>` |
| TestTable.ScriptSrc | go_ml_test.go:41-45 | `Script(Src(s))()` builds `<script src="s"></script>` |
| TestTable.InputType | go_ml_test.go:46-50 | `Input(Type(t))` builds `<input type="t"/>` |
| TestTable.DivWithText | go_ml_test.go:51-55 | `Div()(RawText(x))` builds `<div>x</div>`, the text verbatim |
| TestTable.DivWithMixedChildren | go_ml_test.go:56-60 | raw and element children are written in order with nothing between them |
| TestTable.ClassesMerge | go_ml_test.go:61-65 | `Name(n)` then three `ClassNames` merge into `name` and one `class` holding the three values in order |
| TestTable.InputWithMergedClasses | go_ml_test.go:61-65 | that input builds `<input name="n" class="c1 c2 c3"/>` |
| TestTable.InputCheckedHxOn | go_ml_test.go:67-71 | `Input(Checked(), HxOn(e, x))` builds `<input checked hx-on:e="x"/>` |
| TestTable.KindConflictFirstWins | go_ml_test.go:72-78 | `required` twice, single then double-quoted, merges into the single kind, so the input builds `<input type="t" required/>` |
| TestTable.UncheckedLeavesASpace | go_ml.go:168-171 | an unchecked `IsChecked` before another attribute leaves a doubled space in the block |
| TestTable.UncheckedLastIsTrimmed | go_ml.go:168-171 | last in the list, its space is the one trailing space trimmed |
| TestTable.NestedHtmlWithoutDoctype | go_ml.go:113-116 | an `html` element below the root gets no doctype |
| TestTable.IndentedNesting | go_ml.go:148-151 | three nested elements at any level: a newline and depth × level spaces after each opening tag with children, a newline and one level less before its closing tag, nothing around the childless one |
| TestTable.DefaultIndentationLevel | go_ml.go:78-83 | the default indentation option turns indentation on at four spaces per level |
| TestTable.RawTextRoot | go_ml.go:97-99 | building raw text directly writes the zero element, `<></>` |

## Left out

- The kinds of attributes, elements and contents are Go string types that accept any label. The `Other…` variants stand for labels other than the named ones; by convention a named label such as `"single"` or `"node"` is always represented by its named variant, and no member checks it.
- Merge.MergeAttributes: value lists are immutable sequences. In Go, `append(curAttr.values, attr.values...)` (go_ml.go:159) can write into spare capacity of the slice the caller passed, so other attributes sharing that backing array would see the appended values; that aliasing is not modelled, and the model always renders each attribute's own values.
- The diagnostic logger (`NopLogger`, `WithLogger`, the `Info` call in `buildDOM`) has no effect on the output. It is not modelled; `WithLogger` is an option that changes nothing, and the byte total it logs is not computed.
- The `io.Writer` is replaced by the `Sinks.Sink` class. A write may fail only at one chosen call, accepting a prefix of its input. Writers that fail repeatedly or at random are not modelled.
- Strings are byte strings, and one `char` stands for one byte. UTF-8 encoding is not modelled, so counts are lengths of the modelled strings.
- `fmt.Sprintf` for the void tag is written as plain concatenation. The `%s` of an unrecognised content type is its string value (`Serializer.Message`).
- A tag closure is modelled as a constructor that takes the children as its last argument. `Input` is that constructor applied to no children.
- The child loop of `parseElement` is split into the methods `ParseChildren` (the loop) and `ParseChild` (one pass).
- Serializer.BuildDOM: `buildDOM` returns only the error, so the model returns only the status. Its byte total, the doctype bytes plus the count of `parseElement` (go_ml.go:115,122), is only passed to the logger and is not computed, since the logger is left out.
- When a child element fails, `parseElement` returns without adding that child's count (go_ml.go:196-198). The model does the same: the writer keeps those bytes but the count leaves them out (`Serializer.ChildFailureUncounted`, `Serializer.FirstChildFailureUncounted`). Open-tag, close-tag and raw-text failures do include their partial bytes (`Serializer.RunCountsExactly`).
- The error of the doctype write in `buildDOM` is ignored, as in the code.
- The disabled test row (go_ml_test.go:72-78) calls `attr("required", "required")`, a function that does not exist. It is read as `Attr("required", DoubleQuoted, "required")`. The row's expected text also disagrees with its own input (`checkbox` against `text`), and the merge keeps only the first `required`. `TestTable.KindConflictFirstWins` states what the code produces.
- The example programs (examples/todo_list.go, examples/hello_world.go) are HTTP glue written against an older API and are not part of this model.
