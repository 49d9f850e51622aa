/** The serializer: `parseElement`, which writes one element and its subtree to the
    writer and stops at the first failed write, and `buildDOM`, its entry point. */
module Serializer {
  import opened Text
  import opened Merge
  import opened Content
  import opened Sinks
  import opened Config
  import opened Render

  /** `WriteFailed` stands for whatever error the writer returned. */
  datatype Error = WriterNotFound | WriteFailed | UnrecognizedContent(ctType: ContentType)

  datatype Status = Ok | Err(error: Error)

  /** The writer's state afterwards, the byte count `parseElement` returns, and its error. */
  datatype Outcome = Outcome(state: SinkState, count: nat, status: Status)

  /** The string value of a content type. */
  function TypeName(ct: ContentType): string {
    match ct
    case Raw => "raw-text"
    case Node => "node"
    case OtherContentType(kind) => kind
  }

  /** The text of the errors the library makes itself. */
  function Message(e: Error): string
    requires !e.WriteFailed?
  {
    match e
    case WriterNotFound => "writer not found!"
    case UnrecognizedContent(ct) => "not recognized content type: [" + TypeName(ct) + "]"
  }

  function StatusOf(failed: bool): Status {
    if failed then Err(WriteFailed) else Ok
  }

  // ---------------------------------------------------------------------------
  // What `parseElement` does to the writer

  /** The run of `parseElement(e, depth)` on a writer in state `st`. The indentation writes
      are not checked for errors; when a child subtree fails, the count returned leaves
      out the bytes that subtree wrote. */
  function ElementRun(ind: Indentation, e: Element, depth: int, st: SinkState, fp: FailurePoint): Outcome
    decreases e, |e.contents| + 1
  {
    if e.elType == Void then
      var w := Attempt(st, fp, VoidTag(e));
      Outcome(w.state, w.n, StatusOf(w.failed))
    else
      var o := Attempt(st, fp, OpenTag(e));
      if o.failed then Outcome(o.state, o.n, Err(WriteFailed))
      else
        var r := IndentWrite(e, o.state, fp, OpenIndent(ind, depth));
        AfterChildren(ind, e, depth, ChildrenRun(ind, e, 0, depth, r.state, fp), o.n + r.n, fp)
  }

  /** An indentation write: made only around a non-empty child list, its error ignored. */
  function IndentWrite(e: Element, st: SinkState, fp: FailurePoint, s: string): WriteResult {
    if |e.contents| > 0 then Attempt(st, fp, s) else WriteResult(st, 0, false)
  }

  /** The run of the child loop of `parseElement` from child `i` on; `count` is the bytes
      the loop adds to the element's total. */
  function ChildrenRun(ind: Indentation, e: Element, i: nat, depth: int, st: SinkState, fp: FailurePoint): Outcome
    requires i <= |e.contents|
    decreases e, |e.contents| - i
  {
    if i == |e.contents| then Outcome(st, 0, Ok)
    else
      var ct := e.contents[i];
      match ct.ctType
      case Node =>
        var c := ElementRun(ind, ct.child, depth + 1, st, fp);
        if c.status.Err? then Outcome(c.state, 0, c.status)
        else
          var rest := ChildrenRun(ind, e, i + 1, depth, c.state, fp);
          Outcome(rest.state, c.count + rest.count, rest.status)
      case Raw =>
        var w := Attempt(st, fp, ct.raw);
        if w.failed then Outcome(w.state, w.n, Err(WriteFailed))
        else
          var rest := ChildrenRun(ind, e, i + 1, depth, w.state, fp);
          Outcome(rest.state, w.n + rest.count, rest.status)
      case OtherContentType(_) =>
        Outcome(st, 0, Err(UnrecognizedContent(ct.ctType)))
  }

  /** An outcome with `extra` more bytes counted. */
  function Shift(o: Outcome, extra: nat): Outcome {
    Outcome(o.state, extra + o.count, o.status)
  }

  /** What is left of a non-void element's run once its child loop has given `c`,
      with `before` bytes counted for the opening tag and indentation. */
  function AfterChildren(ind: Indentation, e: Element, depth: int, c: Outcome, before: nat, fp: FailurePoint): Outcome {
    if c.status.Err? then Outcome(c.state, before + c.count, c.status)
    else
      var l := IndentWrite(e, c.state, fp, CloseIndent(ind, depth));
      var z := Attempt(l.state, fp, CloseTag(e));
      Outcome(z.state, before + c.count + l.n + z.n, StatusOf(z.failed))
  }

  // Proof plumbing: `NodeStep` and `RawStep` unfold one step of `ChildrenRun`, so that the
  // inductive proofs below can name it; they have no counterpart in the library.

  /** One step of the child loop at an element child. */
  lemma NodeStep(ind: Indentation, e: Element, i: nat, depth: int, st: SinkState, fp: FailurePoint)
    requires i < |e.contents| && e.contents[i].ctType.Node?
    ensures var c := ElementRun(ind, e.contents[i].child, depth + 1, st, fp);
      ChildrenRun(ind, e, i, depth, st, fp) ==
        if c.status.Err? then Outcome(c.state, 0, c.status) else Shift(ChildrenRun(ind, e, i + 1, depth, c.state, fp), c.count)
  {
  }

  /** One step of the child loop at a raw text child. */
  lemma RawStep(ind: Indentation, e: Element, i: nat, depth: int, st: SinkState, fp: FailurePoint)
    requires i < |e.contents| && e.contents[i].ctType.Raw?
    ensures var w := Attempt(st, fp, e.contents[i].raw);
      ChildrenRun(ind, e, i, depth, st, fp) ==
        if w.failed then Outcome(w.state, w.n, Err(WriteFailed)) else Shift(ChildrenRun(ind, e, i + 1, depth, w.state, fp), w.n)
  {
  }

  /** The run of `buildDOM` once a writer is configured: the doctype for an `html` root,
      its error ignored, then the root at depth 1. */
  function BuildRun(ind: Indentation, root: Element, st: SinkState, fp: FailurePoint): Outcome {
    var st1 := if root.tagName == "html" then Attempt(st, fp, Doctype).state else st;
    ElementRun(ind, root, 1, st1, fp)
  }

  // ---------------------------------------------------------------------------
  // Properties of a run

  /** A run that wrote `text` after what the writer held, counted all of it and succeeded. */
  ghost predicate WritesExactly(st: SinkState, o: Outcome, text: string) {
    o.state.data == st.data + text && o.count == |text| && o.status == Ok
  }

  /** Two runs one after the other write the two texts one after the other. */
  lemma WritesThen(st: SinkState, c: Outcome, t1: string, r: Outcome, t2: string)
    requires WritesExactly(st, c, t1) && WritesExactly(c.state, r, t2)
    ensures WritesExactly(st, Shift(r, c.count), t1 + t2)
  {
    Associative(st.data, t1, t2);
  }

  /** With a writer that never fails, a renderable element is written exactly as `Markup`
      says, the count is its length and there is no error. */
  lemma {:induction false} RunWritesMarkup(ind: Indentation, e: Element, depth: int, st: SinkState)
    requires Renderable(e)
    ensures WritesExactly(st, ElementRun(ind, e, depth, st, Never), Markup(ind, e, depth))
    decreases e, |e.contents| + 1
  {
    if e.elType != Void {
      var o := Attempt(st, Never, OpenTag(e));
      var r := IndentWrite(e, o.state, Never, OpenIndent(ind, depth));
      var i1 := if |e.contents| > 0 then OpenIndent(ind, depth) else "";
      var i2 := if |e.contents| > 0 then CloseIndent(ind, depth) else "";
      var cm := ChildrenMarkup(ind, e, 0, depth);
      var ot := OpenTag(e);
      assert r.state.data == st.data + ot + i1 && o.n + r.n == |ot + i1|;
      ChildrenRunWritesChildren(ind, e, 0, depth, r.state);
      var c := ChildrenRun(ind, e, 0, depth, r.state, Never);
      assert ElementRun(ind, e, depth, st, Never) == AfterChildren(ind, e, depth, c, o.n + r.n, Never);
      AfterChildrenNever(ind, e, depth, c, o.n + r.n);
      assert Markup(ind, e, depth) == ot + i1 + cm + i2 + CloseTag(e);
      calc {
        st.data + Markup(ind, e, depth);
        { Associative(st.data, ot + i1 + cm + i2, CloseTag(e)); }
        st.data + (ot + i1 + cm + i2) + CloseTag(e);
        { Associative(st.data, ot + i1 + cm, i2); }
        st.data + (ot + i1 + cm) + i2 + CloseTag(e);
        { Associative(st.data, ot + i1, cm); }
        st.data + (ot + i1) + cm + i2 + CloseTag(e);
        { Associative(st.data, ot, i1); }
        st.data + ot + i1 + cm + i2 + CloseTag(e);
      }
    }
  }

  /** The closing writes of an element whose children were all written, on a writer that never fails. */
  lemma AfterChildrenNever(ind: Indentation, e: Element, depth: int, c: Outcome, before: nat)
    requires c.status == Ok
    ensures var i2 := if |e.contents| > 0 then CloseIndent(ind, depth) else "";
      var a := AfterChildren(ind, e, depth, c, before, Never);
      && a.state.data == c.state.data + i2 + CloseTag(e)
      && a.count == before + c.count + |i2| + |CloseTag(e)|
      && a.status == Ok
  {
  }

  lemma {:induction false} ChildrenRunWritesChildren(ind: Indentation, e: Element, i: nat, depth: int, st: SinkState)
    requires i <= |e.contents| && ChildrenRenderable(e, i)
    ensures WritesExactly(st, ChildrenRun(ind, e, i, depth, st, Never), ChildrenMarkup(ind, e, i, depth))
    decreases e, |e.contents| - i, 1
  {
    if i < |e.contents| {
      if e.contents[i].ctType.Node? {
        NodeWritesMarkup(ind, e, i, depth, st);
      } else {
        RawWritesText(ind, e, i, depth, st);
      }
    }
  }

  lemma {:induction false} NodeWritesMarkup(ind: Indentation, e: Element, i: nat, depth: int, st: SinkState)
    requires i < |e.contents| && ChildrenRenderable(e, i) && e.contents[i].ctType.Node?
    ensures WritesExactly(st, ChildrenRun(ind, e, i, depth, st, Never), ChildrenMarkup(ind, e, i, depth))
    decreases e, |e.contents| - i, 0
  {
    var child := e.contents[i].child;
    NodeStep(ind, e, i, depth, st, Never);
    RunWritesMarkup(ind, child, depth + 1, st);
    var c := ElementRun(ind, child, depth + 1, st, Never);
    ChildrenRunWritesChildren(ind, e, i + 1, depth, c.state);
    WritesThen(st, c, Markup(ind, child, depth + 1), ChildrenRun(ind, e, i + 1, depth, c.state, Never), ChildrenMarkup(ind, e, i + 1, depth));
  }

  lemma {:induction false} RawWritesText(ind: Indentation, e: Element, i: nat, depth: int, st: SinkState)
    requires i < |e.contents| && ChildrenRenderable(e, i) && e.contents[i].ctType.Raw?
    ensures WritesExactly(st, ChildrenRun(ind, e, i, depth, st, Never), ChildrenMarkup(ind, e, i, depth))
    decreases e, |e.contents| - i, 0
  {
    var raw := e.contents[i].raw;
    RawStep(ind, e, i, depth, st, Never);
    var w := Attempt(st, Never, raw);
    ChildrenRunWritesChildren(ind, e, i + 1, depth, w.state);
    WritesThen(st, Outcome(w.state, w.n, Ok), raw, ChildrenRun(ind, e, i + 1, depth, w.state, Never), ChildrenMarkup(ind, e, i + 1, depth));
  }

  /** Nothing written is taken back, the number of writes only grows, and the count is never
      more than the bytes written; without an error it is exactly the bytes written. */
  ghost predicate Accounted(st: SinkState, o: Outcome) {
    && st.data <= o.state.data
    && st.calls <= o.state.calls
    && o.count <= |o.state.data| - |st.data|
    && (o.status.Ok? ==> o.count == |o.state.data| - |st.data|)
  }

  lemma {:induction false} RunAccounting(ind: Indentation, e: Element, depth: int, st: SinkState, fp: FailurePoint)
    ensures Accounted(st, ElementRun(ind, e, depth, st, fp))
    decreases e, |e.contents| + 1, 1
  {
    if e.elType == Void {
      AttemptWrites(st, fp, VoidTag(e));
    } else {
      OpenedAccounting(ind, e, depth, st, fp);
    }
  }

  lemma {:induction false} OpenedAccounting(ind: Indentation, e: Element, depth: int, st: SinkState, fp: FailurePoint)
    requires e.elType != Void
    ensures Accounted(st, ElementRun(ind, e, depth, st, fp))
    decreases e, |e.contents| + 1, 0
  {
    var o := Attempt(st, fp, OpenTag(e));
    AttemptWrites(st, fp, OpenTag(e));
    if !o.failed {
      var r := IndentWrite(e, o.state, fp, OpenIndent(ind, depth));
      IndentWriteGrows(e, o.state, fp, OpenIndent(ind, depth));
      ChildrenRunAccounting(ind, e, 0, depth, r.state, fp);
      var c := ChildrenRun(ind, e, 0, depth, r.state, fp);
      Prefix3(st.data, st.data, o.state.data, r.state.data);
      AfterChildrenAccounting(st, r.state, ind, e, depth, c, o.n + r.n, fp);
    }
  }

  /** The closing writes only add to what was written, and count all of it; `before` is
      what was written since `st` when the child loop started in state `s`. */
  lemma AfterChildrenAccounting(st: SinkState, s: SinkState, ind: Indentation, e: Element, depth: int, c: Outcome, before: nat, fp: FailurePoint)
    requires st.data <= s.data && st.calls <= s.calls && before == |s.data| - |st.data|
    requires Accounted(s, c)
    ensures Accounted(st, AfterChildren(ind, e, depth, c, before, fp))
  {
    if c.status.Ok? {
      var l := IndentWrite(e, c.state, fp, CloseIndent(ind, depth));
      IndentWriteGrows(e, c.state, fp, CloseIndent(ind, depth));
      AttemptWrites(l.state, fp, CloseTag(e));
      var z := Attempt(l.state, fp, CloseTag(e));
      Prefix3(st.data, s.data, c.state.data, l.state.data);
      Prefix3(st.data, c.state.data, l.state.data, z.state.data);
    }
  }

  /** An indentation write appends what it counts. */
  lemma IndentWriteGrows(e: Element, st: SinkState, fp: FailurePoint, s: string)
    ensures var r := IndentWrite(e, st, fp, s);
      && st.data <= r.state.data
      && st.calls <= r.state.calls
      && r.n == |r.state.data| - |st.data|
  {
    AttemptWrites(st, fp, s);
  }

  lemma Prefix3(a: string, b: string, c: string, d: string)
    requires a <= b <= c <= d
    ensures a <= c && a <= d
  {
  }

  lemma {:induction false} ChildrenRunAccounting(ind: Indentation, e: Element, i: nat, depth: int, st: SinkState, fp: FailurePoint)
    requires i <= |e.contents|
    ensures Accounted(st, ChildrenRun(ind, e, i, depth, st, fp))
    decreases e, |e.contents| - i, 0
  {
    if i < |e.contents| {
      var ct := e.contents[i];
      match ct.ctType
      case Node =>
        NodeStep(ind, e, i, depth, st, fp);
        RunAccounting(ind, ct.child, depth + 1, st, fp);
        var c := ElementRun(ind, ct.child, depth + 1, st, fp);
        if c.status.Ok? {
          ChildrenRunAccounting(ind, e, i + 1, depth, c.state, fp);
          var rest := ChildrenRun(ind, e, i + 1, depth, c.state, fp);
          Prefix3(st.data, st.data, c.state.data, rest.state.data);
        }
      case Raw =>
        RawStep(ind, e, i, depth, st, fp);
        AttemptWrites(st, fp, ct.raw);
        var w := Attempt(st, fp, ct.raw);
        if !w.failed {
          ChildrenRunAccounting(ind, e, i + 1, depth, w.state, fp);
          var rest := ChildrenRun(ind, e, i + 1, depth, w.state, fp);
          Prefix3(st.data, st.data, w.state.data, rest.state.data);
        }
      case OtherContentType(_) =>
    }
  }

  /** A failed write ends the run: the write that failed is the last one made. */
  lemma {:induction false} FailureStopsWriting(ind: Indentation, e: Element, depth: int, st: SinkState, fp: FailurePoint)
    ensures var o := ElementRun(ind, e, depth, st, fp);
      o.status == Err(WriteFailed) ==> fp.AtCall? && o.state.calls == fp.index + 1
    decreases e, |e.contents| + 1
  {
    if e.elType != Void {
      var o := Attempt(st, fp, OpenTag(e));
      if !o.failed {
        var r := IndentWrite(e, o.state, fp, OpenIndent(ind, depth));
        ChildrenFailureStopsWriting(ind, e, 0, depth, r.state, fp);
      }
    }
  }

  lemma {:induction false} ChildrenFailureStopsWriting(ind: Indentation, e: Element, i: nat, depth: int, st: SinkState, fp: FailurePoint)
    requires i <= |e.contents|
    ensures var o := ChildrenRun(ind, e, i, depth, st, fp);
      o.status == Err(WriteFailed) ==> fp.AtCall? && o.state.calls == fp.index + 1
    decreases e, |e.contents| - i
  {
    if i < |e.contents| {
      var ct := e.contents[i];
      match ct.ctType
      case Node =>
        FailureStopsWriting(ind, ct.child, depth + 1, st, fp);
        var c := ElementRun(ind, ct.child, depth + 1, st, fp);
        if c.status.Ok? {
          ChildrenFailureStopsWriting(ind, e, i + 1, depth, c.state, fp);
        }
      case Raw =>
        var w := Attempt(st, fp, ct.raw);
        if !w.failed {
          ChildrenFailureStopsWriting(ind, e, i + 1, depth, w.state, fp);
        }
      case OtherContentType(_) =>
    }
  }

  /** A void element is one write, and its children are never looked at. */
  lemma VoidWritesOnce(ind: Indentation, e: Element, depth: int, st: SinkState, fp: FailurePoint, cs: seq<Content>)
    requires e.elType == Void
    ensures ElementRun(ind, e, depth, st, fp).state.calls == st.calls + 1
    ensures ElementRun(ind, e, depth, st, fp) == ElementRun(ind, e.(contents := cs), depth, st, fp)
  {
  }

  /** With a writer that never fails, `buildDOM` writes exactly the document. */
  lemma DocumentWritten(ind: Indentation, root: Element, st: SinkState)
    requires Renderable(root)
    ensures BuildRun(ind, root, st, Never).state.data == st.data + Document(ind, root)
    ensures BuildRun(ind, root, st, Never).status == Ok
  {
    if root.tagName == "html" {
      var st1 := Attempt(st, Never, Doctype).state;
      assert st1.data == st.data + Doctype;
      RunWritesMarkup(ind, root, 1, st1);
      Associative(st.data, Doctype, Markup(ind, root, 1));
    } else {
      RunWritesMarkup(ind, root, 1, st);
    }
  }

  /** The failure point is behind the writer: no write from here on can fail. */
  predicate Passed(fp: FailurePoint, st: SinkState) {
    fp.Never? || fp.index < st.calls
  }

  lemma PassedAttempt(st: SinkState, fp: FailurePoint, p: string)
    requires Passed(fp, st)
    ensures Attempt(st, fp, p) == Attempt(st, Never, p)
    ensures Passed(fp, Attempt(st, fp, p).state)
  {
  }

  lemma PassedIndent(e: Element, st: SinkState, fp: FailurePoint, s: string)
    requires Passed(fp, st)
    ensures IndentWrite(e, st, fp, s) == IndentWrite(e, st, Never, s)
    ensures Passed(fp, IndentWrite(e, st, fp, s).state)
  {
  }

  lemma PassedAfterChildren(ind: Indentation, e: Element, depth: int, c: Outcome, before: nat, fp: FailurePoint)
    requires Passed(fp, c.state)
    ensures AfterChildren(ind, e, depth, c, before, fp) == AfterChildren(ind, e, depth, c, before, Never)
  {
    if c.status.Ok? {
      PassedIndent(e, c.state, fp, CloseIndent(ind, depth));
      PassedAttempt(IndentWrite(e, c.state, fp, CloseIndent(ind, depth)).state, fp, CloseTag(e));
    }
  }

  /** Once the failing write is behind it, a run is the run on a writer that never fails. */
  lemma {:induction false} PassedRun(ind: Indentation, e: Element, depth: int, st: SinkState, fp: FailurePoint)
    requires Passed(fp, st)
    ensures ElementRun(ind, e, depth, st, fp) == ElementRun(ind, e, depth, st, Never)
    decreases e, |e.contents| + 1
  {
    if e.elType == Void {
      PassedAttempt(st, fp, VoidTag(e));
    } else {
      PassedAttempt(st, fp, OpenTag(e));
      var o := Attempt(st, Never, OpenTag(e));
      PassedIndent(e, o.state, fp, OpenIndent(ind, depth));
      var r := IndentWrite(e, o.state, Never, OpenIndent(ind, depth));
      PassedChildren(ind, e, 0, depth, r.state, fp);
      var c := ChildrenRun(ind, e, 0, depth, r.state, Never);
      ChildrenRunAccounting(ind, e, 0, depth, r.state, Never);
      PassedAfterChildren(ind, e, depth, c, o.n + r.n, fp);
    }
  }

  lemma {:induction false} PassedChildren(ind: Indentation, e: Element, i: nat, depth: int, st: SinkState, fp: FailurePoint)
    requires i <= |e.contents| && Passed(fp, st)
    ensures ChildrenRun(ind, e, i, depth, st, fp) == ChildrenRun(ind, e, i, depth, st, Never)
    decreases e, |e.contents| - i
  {
    if i < |e.contents| {
      var ct := e.contents[i];
      match ct.ctType
      case Node =>
        NodeStep(ind, e, i, depth, st, fp);
        NodeStep(ind, e, i, depth, st, Never);
        PassedRun(ind, ct.child, depth + 1, st, fp);
        RunAccounting(ind, ct.child, depth + 1, st, Never);
        var c := ElementRun(ind, ct.child, depth + 1, st, Never);
        if c.status.Ok? {
          PassedChildren(ind, e, i + 1, depth, c.state, fp);
        }
      case Raw =>
        RawStep(ind, e, i, depth, st, fp);
        RawStep(ind, e, i, depth, st, Never);
        var w := Attempt(st, Never, ct.raw);
        PassedChildren(ind, e, i + 1, depth, w.state, fp);
      case OtherContentType(_) =>
    }
  }

  /** The error of the indentation write after an opening tag is dropped: when that is the
      write that fails, the element is still written whole, with only a prefix of the
      indentation, and the run reports no error. */
  lemma IndentationErrorIgnored(ind: Indentation, e: Element, depth: int, st: SinkState, accepted: nat)
    requires e.elType != Void && |e.contents| > 0 && Renderable(e)
    ensures var i1 := OpenIndent(ind, depth);
      var o := ElementRun(ind, e, depth, st, AtCall(st.calls + 1, accepted));
      && o.state.data == st.data + OpenTag(e) + i1[..Min(accepted, |i1|)] + ChildrenMarkup(ind, e, 0, depth)
           + CloseIndent(ind, depth) + CloseTag(e)
      && o.count == |o.state.data| - |st.data|
      && o.status == Ok
  {
    var fp := AtCall(st.calls + 1, accepted);
    var i1 := OpenIndent(ind, depth);
    var o := Attempt(st, fp, OpenTag(e));
    var r := IndentWrite(e, o.state, fp, i1);
    assert r.state.data == st.data + OpenTag(e) + i1[..Min(accepted, |i1|)];
    assert o.n + r.n == |r.state.data| - |st.data|;
    PassedChildren(ind, e, 0, depth, r.state, fp);
    ChildrenRunWritesChildren(ind, e, 0, depth, r.state);
    var c := ChildrenRun(ind, e, 0, depth, r.state, Never);
    ChildrenRunAccounting(ind, e, 0, depth, r.state, Never);
    PassedAfterChildren(ind, e, depth, c, o.n + r.n, fp);
    AfterChildrenNever(ind, e, depth, c, o.n + r.n);
  }

  /** The failure point is not before write number `calls`: every write made before it succeeds. */
  predicate Ahead(fp: FailurePoint, calls: nat) {
    fp.Never? || calls <= fp.index
  }

  lemma AheadAttempt(st: SinkState, fp: FailurePoint, p: string)
    requires Ahead(fp, st.calls + 1)
    ensures Attempt(st, fp, p) == Attempt(st, Never, p)
  {
  }

  lemma AheadIndent(e: Element, st: SinkState, fp: FailurePoint, s: string)
    requires Ahead(fp, IndentWrite(e, st, Never, s).state.calls)
    ensures IndentWrite(e, st, fp, s) == IndentWrite(e, st, Never, s)
  {
    if |e.contents| > 0 {
      AheadAttempt(st, fp, s);
    }
  }

  /** The closing writes never take back a call. */
  lemma AfterChildrenGrows(ind: Indentation, e: Element, depth: int, c: Outcome, before: nat, fp: FailurePoint)
    ensures c.state.calls <= AfterChildren(ind, e, depth, c, before, fp).state.calls
  {
    if c.status.Ok? {
      IndentWriteGrows(e, c.state, fp, CloseIndent(ind, depth));
    }
  }

  lemma AheadAfterChildren(ind: Indentation, e: Element, depth: int, c: Outcome, before: nat, fp: FailurePoint)
    requires Ahead(fp, AfterChildren(ind, e, depth, c, before, Never).state.calls)
    ensures AfterChildren(ind, e, depth, c, before, fp) == AfterChildren(ind, e, depth, c, before, Never)
  {
    if c.status.Ok? {
      var l := IndentWrite(e, c.state, Never, CloseIndent(ind, depth));
      IndentWriteGrows(e, c.state, Never, CloseIndent(ind, depth));
      AheadIndent(e, c.state, fp, CloseIndent(ind, depth));
      AheadAttempt(l.state, fp, CloseTag(e));
    }
  }

  /** A run whose writes all come before the failure point is the run on a writer that
      never fails. */
  lemma {:induction false} AheadRun(ind: Indentation, e: Element, depth: int, st: SinkState, fp: FailurePoint)
    requires Ahead(fp, ElementRun(ind, e, depth, st, Never).state.calls)
    ensures ElementRun(ind, e, depth, st, fp) == ElementRun(ind, e, depth, st, Never)
    decreases e, |e.contents| + 1
  {
    if e.elType == Void {
      AheadAttempt(st, fp, VoidTag(e));
    } else {
      var o := Attempt(st, Never, OpenTag(e));
      var r := IndentWrite(e, o.state, Never, OpenIndent(ind, depth));
      IndentWriteGrows(e, o.state, Never, OpenIndent(ind, depth));
      var c := ChildrenRun(ind, e, 0, depth, r.state, Never);
      ChildrenRunAccounting(ind, e, 0, depth, r.state, Never);
      AfterChildrenGrows(ind, e, depth, c, o.n + r.n, Never);
      AheadAttempt(st, fp, OpenTag(e));
      AheadIndent(e, o.state, fp, OpenIndent(ind, depth));
      AheadChildren(ind, e, 0, depth, r.state, fp);
      AheadAfterChildren(ind, e, depth, c, o.n + r.n, fp);
    }
  }

  lemma {:induction false} AheadChildren(ind: Indentation, e: Element, i: nat, depth: int, st: SinkState, fp: FailurePoint)
    requires i <= |e.contents| && Ahead(fp, ChildrenRun(ind, e, i, depth, st, Never).state.calls)
    ensures ChildrenRun(ind, e, i, depth, st, fp) == ChildrenRun(ind, e, i, depth, st, Never)
    decreases e, |e.contents| - i
  {
    if i < |e.contents| {
      var ct := e.contents[i];
      match ct.ctType
      case Node =>
        NodeStep(ind, e, i, depth, st, fp);
        NodeStep(ind, e, i, depth, st, Never);
        var c := ElementRun(ind, ct.child, depth + 1, st, Never);
        if c.status.Ok? {
          ChildrenRunAccounting(ind, e, i + 1, depth, c.state, Never);
          AheadChildren(ind, e, i + 1, depth, c.state, fp);
        }
        AheadRun(ind, ct.child, depth + 1, st, fp);
      case Raw =>
        RawStep(ind, e, i, depth, st, fp);
        RawStep(ind, e, i, depth, st, Never);
        var w := Attempt(st, Never, ct.raw);
        ChildrenRunAccounting(ind, e, i + 1, depth, w.state, Never);
        AheadAttempt(st, fp, ct.raw);
        AheadChildren(ind, e, i + 1, depth, w.state, fp);
      case OtherContentType(_) =>
    }
  }

  /** The error of the indentation write before the closing tag is dropped too: when the
      write right after the last child's is the one that fails, the element is written whole
      but for the tail of that indentation, fully counted, and the run reports no error. */
  lemma CloseIndentationErrorIgnored(ind: Indentation, e: Element, depth: int, st: SinkState, accepted: nat)
    requires e.elType != Void && |e.contents| > 0 && Renderable(e)
    ensures var o := Attempt(st, Never, OpenTag(e));
      var r := Attempt(o.state, Never, OpenIndent(ind, depth));
      var at := ChildrenRun(ind, e, 0, depth, r.state, Never).state.calls;
      var i2 := CloseIndent(ind, depth);
      var run := ElementRun(ind, e, depth, st, AtCall(at, accepted));
      && run.state.data == st.data + OpenTag(e) + OpenIndent(ind, depth) + ChildrenMarkup(ind, e, 0, depth)
           + i2[..Min(accepted, |i2|)] + CloseTag(e)
      && run.count == |run.state.data| - |st.data|
      && run.status == Ok
  {
    var o := Attempt(st, Never, OpenTag(e));
    var r := Attempt(o.state, Never, OpenIndent(ind, depth));
    var c := ChildrenRun(ind, e, 0, depth, r.state, Never);
    var fp := AtCall(c.state.calls, accepted);
    ChildrenRunAccounting(ind, e, 0, depth, r.state, Never);
    AheadAttempt(st, fp, OpenTag(e));
    AheadAttempt(o.state, fp, OpenIndent(ind, depth));
    AheadChildren(ind, e, 0, depth, r.state, fp);
    ChildrenRunWritesChildren(ind, e, 0, depth, r.state);
    var i2 := CloseIndent(ind, depth);
    var l := Attempt(c.state, fp, i2);
    assert l.state.data == c.state.data + i2[..Min(accepted, |i2|)] && l.state.calls == fp.index + 1;
    var z := Attempt(l.state, fp, CloseTag(e));
    assert z.state.data == l.state.data + CloseTag(e) && !z.failed;
  }

  // ---------------------------------------------------------------------------
  // Exact accounting

  /** The bytes written by the child element whose failure ended the child loop from `i`
      on, or 0 when the loop did not end at a failed child element. */
  ghost function DroppedChildren(ind: Indentation, e: Element, i: nat, depth: int, st: SinkState, fp: FailurePoint): int
    requires i <= |e.contents|
    decreases |e.contents| - i
  {
    if i == |e.contents| then 0
    else
      var ct := e.contents[i];
      match ct.ctType
      case Node =>
        var c := ElementRun(ind, ct.child, depth + 1, st, fp);
        if c.status.Err? then |c.state.data| - |st.data| else DroppedChildren(ind, e, i + 1, depth, c.state, fp)
      case Raw =>
        var w := Attempt(st, fp, ct.raw);
        if w.failed then 0 else DroppedChildren(ind, e, i + 1, depth, w.state, fp)
      case OtherContentType(_) => 0
  }

  /** The bytes of `e`'s run written by a failed child element of `e`. */
  ghost function Dropped(ind: Indentation, e: Element, depth: int, st: SinkState, fp: FailurePoint): int {
    if e.elType == Void then 0
    else
      var o := Attempt(st, fp, OpenTag(e));
      if o.failed then 0
      else DroppedChildren(ind, e, 0, depth, IndentWrite(e, o.state, fp, OpenIndent(ind, depth)).state, fp)
  }

  lemma {:induction false} ChildrenRunCountsExactly(ind: Indentation, e: Element, i: nat, depth: int, st: SinkState, fp: FailurePoint)
    requires i <= |e.contents|
    ensures var o := ChildrenRun(ind, e, i, depth, st, fp);
      var d := DroppedChildren(ind, e, i, depth, st, fp);
      && o.count + d == |o.state.data| - |st.data|
      && (o.status.Ok? ==> d == 0)
      && ((forall k :: i <= k < |e.contents| ==> !e.contents[k].ctType.Node?) ==> d == 0)
    decreases |e.contents| - i
  {
    if i < |e.contents| {
      var ct := e.contents[i];
      match ct.ctType
      case Node =>
        NodeStep(ind, e, i, depth, st, fp);
        RunAccounting(ind, ct.child, depth + 1, st, fp);
        var c := ElementRun(ind, ct.child, depth + 1, st, fp);
        if c.status.Ok? {
          ChildrenRunCountsExactly(ind, e, i + 1, depth, c.state, fp);
        }
      case Raw =>
        RawStep(ind, e, i, depth, st, fp);
        AttemptWrites(st, fp, ct.raw);
        var w := Attempt(st, fp, ct.raw);
        if !w.failed {
          ChildrenRunCountsExactly(ind, e, i + 1, depth, w.state, fp);
        }
      case OtherContentType(_) =>
    }
  }

  /** On any writer, the count is every byte written except those of a failed child element:
      a failed opening tag, raw text or closing tag is counted with the bytes it got through,
      and an element without element children counts everything it wrote. */
  lemma RunCountsExactly(ind: Indentation, e: Element, depth: int, st: SinkState, fp: FailurePoint)
    ensures var o := ElementRun(ind, e, depth, st, fp);
      && o.count + Dropped(ind, e, depth, st, fp) == |o.state.data| - |st.data|
      && (o.status.Ok? ==> Dropped(ind, e, depth, st, fp) == 0)
      && ((forall k :: 0 <= k < |e.contents| ==> !e.contents[k].ctType.Node?) ==> o.count == |o.state.data| - |st.data|)
  {
    if e.elType == Void {
      AttemptWrites(st, fp, VoidTag(e));
    } else {
      var o := Attempt(st, fp, OpenTag(e));
      AttemptWrites(st, fp, OpenTag(e));
      if !o.failed {
        var r := IndentWrite(e, o.state, fp, OpenIndent(ind, depth));
        IndentWriteGrows(e, o.state, fp, OpenIndent(ind, depth));
        ChildrenRunCountsExactly(ind, e, 0, depth, r.state, fp);
        var c := ChildrenRun(ind, e, 0, depth, r.state, fp);
        if c.status.Ok? {
          var l := IndentWrite(e, c.state, fp, CloseIndent(ind, depth));
          IndentWriteGrows(e, c.state, fp, CloseIndent(ind, depth));
          AttemptWrites(l.state, fp, CloseTag(e));
        }
      }
    }
  }

  /** When a child element fails, the child loop returns a count of 0 for it: everything the
      child wrote stays in the writer, and none of it is counted, not even the bytes the
      child's own run reported. */
  lemma ChildFailureUncounted(ind: Indentation, e: Element, i: nat, depth: int, st: SinkState, fp: FailurePoint)
    requires i < |e.contents| && e.contents[i].ctType.Node?
    requires ElementRun(ind, e.contents[i].child, depth + 1, st, fp).status.Err?
    ensures var c := ElementRun(ind, e.contents[i].child, depth + 1, st, fp);
      var o := ChildrenRun(ind, e, i, depth, st, fp);
      && o.state == c.state && o.status == c.status
      && st.data <= o.state.data
      && o.count == 0 && c.count <= |o.state.data| - |st.data|
  {
    NodeStep(ind, e, i, depth, st, fp);
    RunAccounting(ind, e.contents[i].child, depth + 1, st, fp);
  }

  /** For an element whose first child is an element that fails, the element's count is
      exactly its opening tag and indentation, while the writer also holds every byte the
      child wrote. */
  lemma FirstChildFailureUncounted(ind: Indentation, e: Element, depth: int, st: SinkState, fp: FailurePoint)
    requires e.elType != Void && |e.contents| > 0 && e.contents[0].ctType.Node?
    ensures var o := Attempt(st, fp, OpenTag(e));
      var r := IndentWrite(e, o.state, fp, OpenIndent(ind, depth));
      var c := ElementRun(ind, e.contents[0].child, depth + 1, r.state, fp);
      var run := ElementRun(ind, e, depth, st, fp);
      !o.failed && c.status.Err? ==>
        && run.state == c.state && run.status == c.status
        && r.state.data <= run.state.data
        && run.count == |r.state.data| - |st.data|
  {
    var o := Attempt(st, fp, OpenTag(e));
    AttemptWrites(st, fp, OpenTag(e));
    var r := IndentWrite(e, o.state, fp, OpenIndent(ind, depth));
    IndentWriteGrows(e, o.state, fp, OpenIndent(ind, depth));
    var c := ElementRun(ind, e.contents[0].child, depth + 1, r.state, fp);
    if !o.failed && c.status.Err? {
      ChildFailureUncounted(ind, e, 0, depth, r.state, fp);
    }
  }

  /** A child of an unrecognised content type stops the loop before any write: nothing more
      is written or counted, and the error names the content type in its message. */
  lemma UnrecognizedChildReported(ind: Indentation, e: Element, i: nat, depth: int, st: SinkState, fp: FailurePoint)
    requires i < |e.contents| && e.contents[i].ctType.OtherContentType?
    ensures var o := ChildrenRun(ind, e, i, depth, st, fp);
      && o.state == st && o.count == 0 && o.status.Err?
      && o.status.error == UnrecognizedContent(e.contents[i].ctType)
      && Message(o.status.error) == "not recognized content type: [" + e.contents[i].ctType.kind + "]"
  {
  }

  /** One exhibited case: the inner `<div></div>` reaches the writer, its closing tag on a
      failing write, but only the outer `<div>` is counted. */
  lemma ChildFailureExample(st: SinkState)
    ensures var o := ElementRun(Indentation(false, 0), Div([], [Div([], [])]).child, 1, st, AtCall(st.calls + 3, 6));
      && o.state.data == st.data + "<div>" + "<div></div>"
      && o.count == 5 < |o.state.data| - |st.data|
      && o.status == Err(WriteFailed)
  {
    var ind := Indentation(false, 0);
    var fp := AtCall(st.calls + 3, 6);
    var e := Div([], [Div([], [])]).child;
    OuterDivOpens(st);
    var o := Attempt(st, fp, OpenTag(e));
    var r := IndentWrite(e, o.state, fp, OpenIndent(ind, 1));
    EmptyDivFailsAtClose(r.state);
    FirstChildFailureUncounted(ind, e, 1, st, fp);
    Associative(st.data + "<div>", "<div>", "</div>");
    assert "<div>" + "</div>" == "<div></div>";
  }

  /** The opening writes of the example: `<div>` on the first call, no indentation on the second. */
  lemma OuterDivOpens(st: SinkState)
    ensures var e := Div([], [Div([], [])]).child;
      var fp := AtCall(st.calls + 3, 6);
      var o := Attempt(st, fp, OpenTag(e));
      && !o.failed && e.elType != Void && e.contents[0].ctType.Node? && e.contents[0].child == Div([], []).child
      && IndentWrite(e, o.state, fp, OpenIndent(Indentation(false, 0), 1)).state == SinkState(st.data + "<div>", st.calls + 2)
  {
    assert Block([]) == "" by {
      assert Keys([]) == [];
    }
  }

  /** An empty `div` whose closing tag is the failing write, accepting all six bytes. */
  lemma EmptyDivFailsAtClose(s: SinkState)
    ensures var c := ElementRun(Indentation(false, 0), Div([], []).child, 2, s, AtCall(s.calls + 1, 6));
      c.state.data == s.data + "<div>" + "</div>" && c.status == Err(WriteFailed)
  {
    var inner := Div([], []).child;
    assert Block([]) == "" by {
      assert Keys([]) == [];
    }
    assert OpenTag(inner) == "<div>" && CloseTag(inner) == "</div>";
  }

  // ---------------------------------------------------------------------------
  // The imperative serializer

  /** `parseElement`: writes `ele` and its subtree, accumulating the bytes every write reports. */
  method ParseElement(cfg: BuildConfig, ele: Element, depth: int) returns (n: nat, err: Status)
    requires cfg.writer != null
    modifies cfg.writer
    ensures Outcome(cfg.writer.State(), n, err) == ElementRun(cfg.indent, ele, depth, old(cfg.writer.State()), cfg.writer.failure)
    decreases ele, 2
  {
    var w := cfg.writer;
    var ind := cfg.indent;
    ghost var fp := w.failure;
    ghost var st0 := w.State();
    var totalWritten := 0;
    var rIndentStr, lIndentStr := "", "";
    if ind.enabled {
      rIndentStr := PutNChar("\n", " ", depth * ind.level);
      lIndentStr := PutNChar("\n", " ", (depth - 1) * ind.level);
    }
    assert rIndentStr == OpenIndent(ind, depth) && lIndentStr == CloseIndent(ind, depth);
    var attrStr := AttributeBlock(ele.attrs);
    if ele.elType == Void {
      var k, failed := w.Write("<" + ele.tagName + attrStr + "/>");
      totalWritten := totalWritten + k;
      if failed {
        return totalWritten, Err(WriteFailed);
      }
      return totalWritten, Ok;
    }
    var k, failed := w.Write("<" + ele.tagName + attrStr + ">");
    totalWritten := totalWritten + k;
    if failed {
      return totalWritten, Err(WriteFailed);
    }
    ghost var o := Attempt(st0, fp, OpenTag(ele));
    assert w.State() == o.state && totalWritten == o.n;
    if |ele.contents| > 0 {
      k, failed := w.Write(rIndentStr);
      totalWritten := totalWritten + k;
    }
    ghost var before := totalWritten;
    var m, e := ParseChildren(cfg, ele, depth);
    totalWritten := totalWritten + m;
    if e.Err? {
      return totalWritten, e;
    }
    if |ele.contents| > 0 {
      k, failed := w.Write(lIndentStr);
      totalWritten := totalWritten + k;
    }
    k, failed := w.Write("</" + ele.tagName + ">");
    totalWritten := totalWritten + k;
    if failed {
      return totalWritten, Err(WriteFailed);
    }
    return totalWritten, Ok;
  }

  /** The loop's account: `n` bytes counted so far, then the rest of the run. */
  lemma ShiftAgain(base: Outcome, here: Outcome, n: nat, rest: Outcome, m: nat)
    requires base == Shift(here, n) && here == Shift(rest, m)
    ensures base == Shift(rest, n + m)
  {
  }

  lemma ShiftStop(base: Outcome, here: Outcome, n: nat, last: Outcome)
    requires base == Shift(here, n) && here == last
    ensures base == Outcome(last.state, n + last.count, last.status)
  {
  }

  /** The child loop of `parseElement`: the count is what the loop adds to the element's total. */
  method ParseChildren(cfg: BuildConfig, ele: Element, depth: int) returns (n: nat, err: Status)
    requires cfg.writer != null
    modifies cfg.writer
    ensures Outcome(cfg.writer.State(), n, err) == ChildrenRun(cfg.indent, ele, 0, depth, old(cfg.writer.State()), cfg.writer.failure)
    decreases ele, 1
  {
    var w := cfg.writer;
    ghost var ind := cfg.indent;
    ghost var fp := w.failure;
    ghost var base := ChildrenRun(ind, ele, 0, depth, w.State(), fp);
    n := 0;
    for i := 0 to |ele.contents|
      invariant base == Shift(ChildrenRun(ind, ele, i, depth, w.State(), fp), n)
    {
      ghost var here := ChildrenRun(ind, ele, i, depth, w.State(), fp);
      var m, e := ParseChild(cfg, ele, i, depth);
      if e.Err? {
        ShiftStop(base, here, n, Outcome(w.State(), m, e));
        return n + m, e;
      }
      ShiftAgain(base, here, n, ChildrenRun(ind, ele, i + 1, depth, w.State(), fp), m);
      n := n + m;
    }
    return n, Ok;
  }

  /** One pass of the child loop: an element child is parsed one level deeper, raw text is
      written as it is, any other content type is an error. */
  method ParseChild(cfg: BuildConfig, ele: Element, i: nat, depth: int) returns (m: nat, err: Status)
    requires cfg.writer != null && i < |ele.contents|
    modifies cfg.writer
    ensures var here := ChildrenRun(cfg.indent, ele, i, depth, old(cfg.writer.State()), cfg.writer.failure);
      if err.Ok? then here == Shift(ChildrenRun(cfg.indent, ele, i + 1, depth, cfg.writer.State(), cfg.writer.failure), m)
      else here == Outcome(cfg.writer.State(), m, err)
    decreases ele, 0
  {
    var w := cfg.writer;
    var ct := ele.contents[i];
    match ct.ctType {
      case Node =>
        NodeStep(cfg.indent, ele, i, depth, w.State(), w.failure);
        var n, e := ParseElement(cfg, ct.child, depth + 1);
        if e.Err? {
          return 0, e;
        }
        return n, Ok;
      case Raw =>
        RawStep(cfg.indent, ele, i, depth, w.State(), w.failure);
        var k, failed := w.Write(ct.raw);
        if failed {
          return k, Err(WriteFailed);
        }
        return k, Ok;
      case OtherContentType(_) =>
        return 0, Err(UnrecognizedContent(ct.ctType));
    }
  }

  /** `buildDOM`: applies the options, fails without a writer, writes the doctype for an
      `html` root (ignoring that write's error), then the root at depth 1. */
  method BuildDOM(root: Element, opts: seq<BuildOpt>) returns (err: Status)
    modifies Configured(opts).writer
    ensures Configured(opts).writer == null ==> err == Err(WriterNotFound)
    ensures var w := Configured(opts).writer;
      w != null ==>
        var run := BuildRun(Configured(opts).indent, root, old(w.State()), w.failure);
        w.State() == run.state && err == run.status
    ensures var w := Configured(opts).writer;
      w != null && w.failure == Never && Renderable(root) ==>
        w.data == old(w.data) + Document(Configured(opts).indent, root) && err == Ok
  {
    var cfg := ApplyOptions(opts);
    if cfg.writer == null {
      return Err(WriterNotFound);
    }
    ghost var st := cfg.writer.State();
    if root.tagName == "html" {
      var _, _ := cfg.writer.Write(Doctype);
    }
    ghost var st1 := cfg.writer.State();
    assert st1 == if root.tagName == "html" then Attempt(st, cfg.writer.failure, Doctype).state else st;
    var _, e := ParseElement(cfg, root, 1);
    err := e;
    assert cfg.writer.State() == ElementRun(cfg.indent, root, 1, st1, cfg.writer.failure).state;
    assert st == old(cfg.writer.State());
    assert cfg.writer.State() == BuildRun(cfg.indent, root, st, cfg.writer.failure).state;
    assert err == BuildRun(cfg.indent, root, st, cfg.writer.failure).status;
    if cfg.writer.failure == Never && Renderable(root) {
      DocumentWritten(cfg.indent, root, st);
    }
  }

  /** `HTMLContent.BuildDOM`: serialises the content's element payload, whatever its type. */
  method BuildContentDOM(ct: Content, opts: seq<BuildOpt>) returns (err: Status)
    modifies Configured(opts).writer
    ensures Configured(opts).writer == null ==> err == Err(WriterNotFound)
    ensures var w := Configured(opts).writer;
      w != null ==>
        var run := BuildRun(Configured(opts).indent, ct.child, old(w.State()), w.failure);
        w.State() == run.state && err == run.status
  {
    err := BuildDOM(ct.child, opts);
  }
}
