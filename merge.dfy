/** The per-element attribute merge and the attribute block of an opening tag.
    Attributes sharing a name fold into one: names keep the order of their first
    occurrence, values are concatenated in declaration order, the first kind is kept. */
module Merge {
  import opened Text
  import opened Attributes

  /** Index of the first attribute called `name`, or `|attrs|` when there is none. */
  function FirstIndex(attrs: seq<Attribute>, name: string): (k: nat)
    ensures k <= |attrs|
    ensures k < |attrs| ==> attrs[k].name == name
    ensures forall j :: 0 <= j < k ==> attrs[j].name != name
  {
    if |attrs| == 0 then 0
    else if attrs[0].name == name then 0
    else 1 + FirstIndex(attrs[1..], name)
  }

  /** Every value of every attribute called `name`, in declaration order. */
  function ValuesOf(attrs: seq<Attribute>, name: string): seq<string> {
    if |attrs| == 0 then []
    else (if attrs[0].name == name then attrs[0].values else []) + ValuesOf(attrs[1..], name)
  }

  /** The kind of the first attribute called `name` (`None` when there is none; never used then). */
  function KindOf(attrs: seq<Attribute>, name: string): AttributeType {
    var k := FirstIndex(attrs, name);
    if k < |attrs| then attrs[k].attrType else None
  }

  /** The distinct names, gathered by the same left-to-right scan as `attrKeys`. */
  function Keys(attrs: seq<Attribute>): seq<string> {
    if |attrs| == 0 then []
    else
      var p := Keys(attrs[..|attrs| - 1]);
      var n := attrs[|attrs| - 1].name;
      if n in p then p else p + [n]
  }

  /** The merged attribute for `name`: all its values, the first occurrence's kind. */
  function Entry(attrs: seq<Attribute>, name: string): Attribute {
    Attribute(name, ValuesOf(attrs, name), KindOf(attrs, name))
  }

  /** The merged attribute list, one entry per distinct name, in key order. */
  function Merged(attrs: seq<Attribute>): seq<Attribute> {
    var ks := Keys(attrs);
    seq(|ks|, j requires 0 <= j < |ks| => Entry(attrs, ks[j]))
  }

  /** `" " + String()` of each merged attribute, concatenated. */
  function Spaced(ms: seq<Attribute>): string {
    if |ms| == 0 then "" else Spaced(ms[..|ms| - 1]) + " " + Rendered(ms[|ms| - 1])
  }

  /** The attribute block written after the tag name: at most one trailing space trimmed. */
  function Block(attrs: seq<Attribute>): string {
    TrimSuffix(Spaced(Merged(attrs)), " ")
  }

  predicate DistinctNames(attrs: seq<Attribute>) {
    forall i, j :: 0 <= i < j < |attrs| ==> attrs[i].name != attrs[j].name
  }

  // ---------------------------------------------------------------------------
  // Appending one attribute

  lemma {:induction false} FirstIndexSnoc(s: seq<Attribute>, a: Attribute, name: string)
    ensures FirstIndex(s + [a], name) ==
      if FirstIndex(s, name) < |s| then FirstIndex(s, name)
      else if a.name == name then |s| else |s| + 1
  {
    if |s| > 0 {
      assert (s + [a])[1..] == s[1..] + [a];
      FirstIndexSnoc(s[1..], a, name);
    }
  }

  lemma {:induction false} ValuesOfSnoc(s: seq<Attribute>, a: Attribute, name: string)
    ensures ValuesOf(s + [a], name) == ValuesOf(s, name) + (if a.name == name then a.values else [])
  {
    if |s| == 0 {
      assert (s + [a])[1..] == [];
    } else {
      var h := if s[0].name == name then s[0].values else [];
      var t := if a.name == name then a.values else [];
      assert (s + [a])[0] == s[0];
      assert (s + [a])[1..] == s[1..] + [a];
      ValuesOfSnoc(s[1..], a, name);
      assert ValuesOf(s + [a], name) == h + (ValuesOf(s[1..], name) + t);
      assert ValuesOf(s, name) == h + ValuesOf(s[1..], name);
    }
  }

  lemma EntrySnoc(s: seq<Attribute>, a: Attribute, name: string)
    ensures FirstIndex(s, name) < |s| ==>
      Entry(s + [a], name) == Entry(s, name).(values := Entry(s, name).values + (if a.name == name then a.values else []))
    ensures FirstIndex(s, name) == |s| && a.name == name ==> Entry(s + [a], name) == a
  {
    FirstIndexSnoc(s, a, name);
    ValuesOfSnoc(s, a, name);
    if FirstIndex(s, name) == |s| && a.name == name {
      ValuesAbsent(s, name);
    }
  }

  lemma {:induction false} ValuesAbsent(s: seq<Attribute>, name: string)
    requires FirstIndex(s, name) == |s|
    ensures ValuesOf(s, name) == []
  {
    if |s| > 0 {
      ValuesAbsent(s[1..], name);
    }
  }

  // ---------------------------------------------------------------------------
  // What the merge promises

  /** The keys are exactly the names that occur, each once, ordered by first occurrence. */
  lemma {:induction false} KeysAreFirstOccurrences(attrs: seq<Attribute>)
    ensures forall k :: k in Keys(attrs) <==> FirstIndex(attrs, k) < |attrs|
    ensures forall p, q :: 0 <= p < q < |Keys(attrs)| ==>
      FirstIndex(attrs, Keys(attrs)[p]) < FirstIndex(attrs, Keys(attrs)[q])
  {
    if |attrs| > 0 {
      var s, a := attrs[..|attrs| - 1], attrs[|attrs| - 1];
      assert attrs == s + [a];
      KeysAreFirstOccurrences(s);
      var ks := Keys(s);
      assert attrs[..|attrs| - 1] == s;
      assert Keys(attrs) == if a.name in ks then ks else ks + [a.name];
      forall k ensures k in Keys(attrs) <==> FirstIndex(attrs, k) < |attrs| {
        FirstIndexSnoc(s, a, k);
        assert k in ks <==> FirstIndex(s, k) < |s|;
      }
      forall p, q | 0 <= p < q < |Keys(attrs)|
        ensures FirstIndex(attrs, Keys(attrs)[p]) < FirstIndex(attrs, Keys(attrs)[q])
      {
        var kp, kq := Keys(attrs)[p], Keys(attrs)[q];
        FirstIndexSnoc(s, a, kp);
        FirstIndexSnoc(s, a, kq);
        assert kp == ks[p] && kp in ks;
        assert FirstIndex(s, kp) < |s|;
        if q < |ks| {
          assert kq == ks[q] && kq in ks;
          assert FirstIndex(s, kp) < FirstIndex(s, kq) < |s|;
        } else {
          assert kq == a.name && kq !in ks;
          assert FirstIndex(s, kq) == |s|;
        }
      }
    }
  }

  /** Two different positions of the key list hold different names. */
  lemma KeysDistinct(attrs: seq<Attribute>)
    ensures forall p, q :: 0 <= p < q < |Keys(attrs)| ==> Keys(attrs)[p] != Keys(attrs)[q]
  {
    KeysAreFirstOccurrences(attrs);
  }

  /** Each merged attribute carries a name that occurs, every value given under that
      name in declaration order, and the kind of that name's first occurrence. */
  lemma MergedEntries(attrs: seq<Attribute>)
    ensures |Merged(attrs)| == |Keys(attrs)|
    ensures forall j :: 0 <= j < |Merged(attrs)| ==>
      var k := FirstIndex(attrs, Merged(attrs)[j].name);
      && k < |attrs|
      && Merged(attrs)[j].name == Keys(attrs)[j]
      && Merged(attrs)[j].values == ValuesOf(attrs, Keys(attrs)[j])
      && Merged(attrs)[j].attrType == attrs[k].attrType
  {
    KeysAreFirstOccurrences(attrs);
  }

  /** With no repeated names, the keys are the names in declaration order. */
  lemma {:induction false} KeysOfDistinct(attrs: seq<Attribute>)
    requires DistinctNames(attrs)
    ensures |Keys(attrs)| == |attrs|
    ensures forall j :: 0 <= j < |attrs| ==> Keys(attrs)[j] == attrs[j].name
  {
    if |attrs| > 0 {
      var s, a := attrs[..|attrs| - 1], attrs[|attrs| - 1];
      KeysOfDistinct(s);
      assert a.name !in Keys(s);
    }
  }

  /** With no repeated names, the values of each name are its one attribute's values. */
  lemma {:induction false} ValuesOfDistinct(attrs: seq<Attribute>, j: nat)
    requires DistinctNames(attrs) && j < |attrs|
    ensures ValuesOf(attrs, attrs[j].name) == attrs[j].values
  {
    if j == 0 {
      ValuesAbsent(attrs[1..], attrs[0].name);
    } else {
      ValuesOfDistinct(attrs[1..], j - 1);
    }
  }

  /** Merging attributes whose names are already distinct changes nothing. */
  lemma MergeDistinctIsIdentity(attrs: seq<Attribute>)
    requires DistinctNames(attrs)
    ensures Merged(attrs) == attrs
  {
    KeysOfDistinct(attrs);
    forall j | 0 <= j < |attrs| ensures Merged(attrs)[j] == attrs[j] {
      ValuesOfDistinct(attrs, j);
      assert FirstIndex(attrs, attrs[j].name) == j;
    }
  }

  /** Merging is idempotent: a merged list merges to itself. */
  lemma MergeIdempotent(attrs: seq<Attribute>)
    ensures Merged(Merged(attrs)) == Merged(attrs)
    ensures Block(Merged(attrs)) == Block(attrs)
  {
    KeysDistinct(attrs);
    MergeDistinctIsIdentity(Merged(attrs));
  }

  /** The block never drops more than one trailing space, and never one that ends a
      double-quoted attribute: after a double-quoted last attribute nothing is trimmed. */
  lemma BlockTrim(attrs: seq<Attribute>)
    ensures Spaced(Merged(attrs)) == Block(attrs) || Spaced(Merged(attrs)) == Block(attrs) + " "
    ensures |Merged(attrs)| > 0 && Merged(attrs)[|Merged(attrs)| - 1].attrType == DoubleQuoted ==>
      Block(attrs) == Spaced(Merged(attrs))
  {
    var ms := Merged(attrs);
    if |ms| > 0 && ms[|ms| - 1].attrType == DoubleQuoted {
      var sp := Spaced(ms);
      assert sp[|sp| - 1] == '"';
    }
  }

  /** Two attributes of one name merge into one that keeps the first kind and both value
      lists in order; double-quoted, it renders both joins separated by one space. */
  lemma SameNameMerges(a: Attribute, b: Attribute)
    requires a.name == b.name
    ensures Merged([a, b]) == [Attribute(a.name, a.values + b.values, a.attrType)]
    ensures a.attrType == DoubleQuoted ==>
      Block([a, b]) == " " + Rendered(Attribute(a.name, a.values + b.values, a.attrType))
    ensures a.attrType == DoubleQuoted && |a.values| > 0 && |b.values| > 0 ==>
      Block([a, b]) == " " + a.name + "=\"" + Join(a.values) + " " + Join(b.values) + "\""
  {
    var m := Attribute(a.name, a.values + b.values, a.attrType);
    PairOfOneName(a, b);
    if a.attrType == DoubleQuoted {
      BlockTrim([a, b]);
      assert Spaced([m]) == Spaced([m][..0]) + " " + Rendered(m);
      if |a.values| > 0 && |b.values| > 0 {
        JoinAppend(a.values, b.values);
      }
    }
  }

  lemma PairOfOneName(a: Attribute, b: Attribute)
    requires a.name == b.name
    ensures Merged([a, b]) == [Attribute(a.name, a.values + b.values, a.attrType)]
  {
    var attrs := [a, b];
    assert attrs[..1] == [a];
    assert Keys(attrs[..1]) == [a.name] by {
      assert attrs[..1][..0] == [];
    }
    assert Keys(attrs) == [a.name];
    assert ValuesOf(attrs[1..], a.name) == b.values;
    assert ValuesOf(attrs, a.name) == a.values + b.values;
    assert FirstIndex(attrs, a.name) == 0;
    assert Entry(attrs, a.name) == Attribute(a.name, a.values + b.values, a.attrType);
  }

  // ---------------------------------------------------------------------------
  // The imperative merge of `parseElement`

  /** What `attrKeys` and `attrMap` hold once the attributes `s` have been scanned. */
  ghost predicate Scanned(s: seq<Attribute>, keys: seq<string>, m: map<string, Attribute>) {
    && keys == Keys(s)
    && (forall k :: k in m <==> k in keys)
    && (forall k :: k in m ==> m[k] == Entry(s, k))
  }

  /** Scanning an attribute whose name was seen appends its values to the stored entry. */
  lemma ScanSeen(s: seq<Attribute>, a: Attribute, keys: seq<string>, m: map<string, Attribute>)
    requires Scanned(s, keys, m) && a.name in m
    ensures Scanned(s + [a], keys, m[a.name := m[a.name].(values := m[a.name].values + a.values)])
  {
    assert (s + [a])[..|s|] == s;
    KeysAreFirstOccurrences(s);
    forall k | k in keys ensures Entry(s + [a], k) == Entry(s, k).(values := Entry(s, k).values + (if a.name == k then a.values else [])) {
      EntrySnoc(s, a, k);
    }
  }

  /** Scanning an attribute with a new name appends the name and stores the attribute. */
  lemma ScanNew(s: seq<Attribute>, a: Attribute, keys: seq<string>, m: map<string, Attribute>)
    requires Scanned(s, keys, m) && a.name !in m
    ensures Scanned(s + [a], keys + [a.name], m[a.name := a])
  {
    assert (s + [a])[..|s|] == s;
    assert Keys(s + [a]) == keys + [a.name];
    KeysAreFirstOccurrences(s);
    var m' := m[a.name := a];
    forall k | k in m' ensures m'[k] == Entry(s + [a], k) {
      EntrySnoc(s, a, k);
      if k != a.name {
        assert FirstIndex(s, k) < |s|;
        assert Entry(s, k).values + [] == Entry(s, k).values;
      }
    }
  }

  /** Builds `attrKeys` and `attrMap` the way `parseElement` does. */
  method MergeAttributes(attrs: seq<Attribute>) returns (keys: seq<string>, m: map<string, Attribute>)
    ensures keys == Keys(attrs)
    ensures forall k :: k in m <==> k in keys
    ensures forall k :: k in m ==> m[k] == Entry(attrs, k)
  {
    keys, m := [], map[];
    for i := 0 to |attrs|
      invariant Scanned(attrs[..i], keys, m)
    {
      var attr := attrs[i];
      assert attrs[..i + 1] == attrs[..i] + [attr];
      if attr.name in m {
        ScanSeen(attrs[..i], attr, keys, m);
        var cur := m[attr.name];
        cur := cur.(values := cur.values + attr.values);
        m := m[attr.name := cur];
      } else {
        ScanNew(attrs[..i], attr, keys, m);
        keys := keys + [attr.name];
        m := m[attr.name := attr];
      }
    }
    assert attrs[..|attrs|] == attrs;
  }

  /** The attribute block of `parseElement`: `" " + String()` per merged key, then one
      trailing space trimmed. */
  method AttributeBlock(attrs: seq<Attribute>) returns (s: string)
    ensures s == Block(attrs)
  {
    var keys, m := MergeAttributes(attrs);
    ghost var ms := Merged(attrs);
    s := "";
    for i := 0 to |keys|
      invariant s == Spaced(ms[..i])
    {
      var text := String(m[keys[i]]);
      assert ms[..i + 1][..i] == ms[..i];
      s := s + " " + text;
    }
    assert ms[..|keys|] == ms;
    s := TrimSuffix(s, " ");
  }
}
