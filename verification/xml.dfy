/**
 * The shape of the generated project.xml: elements with attributes, the
 * `<section>` tree, the line-by-line text the serializer appends, and the
 * structural facts about them (which attributes appear, how sections nest,
 * in which order element kinds appear). Nothing is escaped: attribute values
 * are copied into the text as they are.
 */
module Xml {
  import opened Common

  datatype Attr = Attr(key: string, value: string)

  /**
   * One field of a configuration record as the serializer sees it: the
   * attribute name it is written under and its value's text, or null.
   */
  datatype Field = Field(key: string, value: Option<string>)

  /** A self-closing element `<tag a="v" .../>`. */
  datatype Element = Element(tag: string, attrs: seq<Attr>)

  /** A node of the generated document: an element, or a section with its conditions and content. */
  datatype Node =
    | Leaf(element: Element)
    | Sect(conditions: seq<Attr>, children: seq<Node>)

  /** One line of the generated text. */
  datatype Line =
    | ElementLine(element: Element)
    | OpenSection(conditions: seq<Attr>)
    | CloseSection

  // ---------------------------------------------------------------------
  // Attributes: present only for non-null fields
  // ---------------------------------------------------------------------

  /** Number of attributes named `k`. */
  function CountKey(attrs: seq<Attr>, k: string): nat {
    if |attrs| == 0 then 0
    else (if attrs[0].key == k then 1 else 0) + CountKey(attrs[1..], k)
  }

  /** Number of non-null fields named `k`. */
  function CountPresent(fields: seq<Field>, k: string): nat {
    if |fields| == 0 then 0
    else (if fields[0].key == k && fields[0].value.Some? then 1 else 0) + CountPresent(fields[1..], k)
  }

  predicate DistinctKeys(fields: seq<Field>) {
    forall i, j :: 0 <= i < j < |fields| ==> fields[i].key != fields[j].key
  }

  /**
   * The attributes written for a record: one per non-null field, in field
   * order, carrying the field's value unchanged; null fields leave no trace.
   */
  function PresentAttrs(fields: seq<Field>): (r: seq<Attr>)
    ensures |r| <= |fields|
    ensures forall k, v :: Attr(k, v) in r <==> Field(k, Some(v)) in fields
    ensures forall k :: CountKey(r, k) == CountPresent(fields, k)
  {
    if |fields| == 0 then []
    else
      var rest := PresentAttrs(fields[1..]);
      assert forall f :: f in fields <==> f == fields[0] || f in fields[1..];
      match fields[0].value
      case Some(v) => [Attr(fields[0].key, v)] + rest
      case None => rest
  }

  lemma {:induction false} CountPresentDistinct(fields: seq<Field>, i: int)
    requires DistinctKeys(fields)
    requires 0 <= i < |fields|
    ensures CountPresent(fields, fields[i].key) == (if fields[i].value.Some? then 1 else 0)
  {
    if i == 0 {
      CountPresentAbsent(fields[1..], fields[0].key);
    } else {
      CountPresentDistinct(fields[1..], i - 1);
    }
  }

  lemma {:induction false} CountPresentAbsent(fields: seq<Field>, k: string)
    requires forall j :: 0 <= j < |fields| ==> fields[j].key != k
    ensures CountPresent(fields, k) == 0
  {
    if |fields| > 0 {
      CountPresentAbsent(fields[1..], k);
    }
  }

  /**
   * For a record whose attribute names are distinct, a set field's attribute
   * appears exactly once with the field's value, and a null field's never.
   */
  lemma AttributeOncePerSetField(fields: seq<Field>, i: int)
    requires DistinctKeys(fields)
    requires 0 <= i < |fields|
    ensures fields[i].value.Some? ==>
      CountKey(PresentAttrs(fields), fields[i].key) == 1
      && Attr(fields[i].key, fields[i].value.value) in PresentAttrs(fields)
    ensures fields[i].value.None? ==> CountKey(PresentAttrs(fields), fields[i].key) == 0
  {
    CountPresentDistinct(fields, i);
    if fields[i].value.Some? {
      assert Field(fields[i].key, Some(fields[i].value.value)) == fields[i];
    }
  }

  /** With distinct names, the value a field name carries is the value of the one field of that name. */
  lemma FieldValueByKey(fields: seq<Field>, i: int)
    requires DistinctKeys(fields)
    requires 0 <= i < |fields|
    ensures forall v :: Field(fields[i].key, Some(v)) in fields <==> fields[i].value == Some(v)
  {
    forall v ensures Field(fields[i].key, Some(v)) in fields ==> fields[i].value == Some(v) {
      if Field(fields[i].key, Some(v)) in fields {
        var j :| 0 <= j < |fields| && fields[j] == Field(fields[i].key, Some(v));
        assert j == i;
      }
    }
  }

  /**
   * Attributes keep their fields' order: when the field names are ranked
   * strictly increasing, so are the names of the attributes written.
   */
  lemma {:induction false} PresentAttrsRanked(fields: seq<Field>, rank: string -> int)
    requires forall i, j :: 0 <= i < j < |fields| ==> rank(fields[i].key) < rank(fields[j].key)
    ensures forall i, j :: 0 <= i < j < |PresentAttrs(fields)| ==>
      rank(PresentAttrs(fields)[i].key) < rank(PresentAttrs(fields)[j].key)
  {
    if |fields| > 0 {
      var rest := PresentAttrs(fields[1..]);
      PresentAttrsRanked(fields[1..], rank);
      forall j | 0 <= j < |rest| ensures rank(fields[0].key) < rank(rest[j].key) {
        assert Attr(rest[j].key, rest[j].value) in rest;
        var m :| 0 <= m < |fields[1..]| && fields[1..][m] == Field(rest[j].key, Some(rest[j].value));
        assert fields[m + 1].key == rest[j].key;
      }
    }
  }

  /** A record whose fields become separate elements, one single-attribute element per set field. */
  function SingleAttrElements(tag: string, fields: seq<Field>): (r: seq<Element>)
    ensures |r| == |PresentAttrs(fields)|
    ensures forall i :: 0 <= i < |r| ==> r[i].tag == tag && |r[i].attrs| == 1
    ensures forall i :: 0 <= i < |r| ==> r[i] == Element(tag, [PresentAttrs(fields)[i]])
    ensures forall k, v :: Element(tag, [Attr(k, v)]) in r <==> Field(k, Some(v)) in fields
  {
    var attrs := PresentAttrs(fields);
    var r := seq(|attrs|, i requires 0 <= i < |attrs| => Element(tag, [attrs[i]]));
    assert forall k, v :: Element(tag, [Attr(k, v)]) in r <==> Attr(k, v) in attrs by {
      forall k, v ensures Element(tag, [Attr(k, v)]) in r <==> Attr(k, v) in attrs {
        if Element(tag, [Attr(k, v)]) in r {
          var i :| 0 <= i < |r| && r[i] == Element(tag, [Attr(k, v)]);
          assert attrs[i] == Attr(k, v);
        }
        if Attr(k, v) in attrs {
          var i :| 0 <= i < |attrs| && attrs[i] == Attr(k, v);
          assert r[i] == Element(tag, [Attr(k, v)]);
        }
      }
    }
    r
  }

  // ---------------------------------------------------------------------
  // Nodes to lines to text
  // ---------------------------------------------------------------------

  function Leaves(es: seq<Element>): (r: seq<Node>)
    ensures |r| == |es|
    ensures forall i :: 0 <= i < |es| ==> r[i] == Leaf(es[i])
  {
    seq(|es|, i requires 0 <= i < |es| => Leaf(es[i]))
  }

  /** The lines of `nodes` in document order; a section is its opening line, its content, its closing line. */
  function Lines(nodes: seq<Node>): seq<Line>
    decreases nodes
  {
    if |nodes| == 0 then [] else NodeLines(nodes[0]) + Lines(nodes[1..])
  }

  function NodeLines(n: Node): seq<Line>
    decreases n
  {
    match n
    case Leaf(e) => [ElementLine(e)]
    case Sect(c, children) => [OpenSection(c)] + Lines(children) + [CloseSection]
  }

  lemma {:induction false} LinesAppend(a: seq<Node>, b: seq<Node>)
    ensures Lines(a + b) == Lines(a) + Lines(b)
  {
    if |a| == 0 {
      assert a + b == b;
    } else {
      assert (a + b)[0] == a[0];
      assert (a + b)[1..] == a[1..] + b;
      LinesAppend(a[1..], b);
    }
  }

  function AttrsText(attrs: seq<Attr>): string {
    if |attrs| == 0 then ""
    else " " + attrs[0].key + "=\"" + attrs[0].value + "\"" + AttrsText(attrs[1..])
  }

  function LineText(l: Line): string {
    match l
    case ElementLine(e) => "<" + e.tag + AttrsText(e.attrs) + "/>\n"
    case OpenSection(c) => "<section" + AttrsText(c) + ">\n"
    case CloseSection => "</section>\n"
  }

  function Text(lines: seq<Line>): string {
    if |lines| == 0 then "" else LineText(lines[0]) + Text(lines[1..])
  }

  lemma {:induction false} TextAppend(a: seq<Line>, b: seq<Line>)
    ensures Text(a + b) == Text(a) + Text(b)
  {
    if |a| == 0 {
      assert a + b == b;
    } else {
      assert (a + b)[0] == a[0];
      assert (a + b)[1..] == a[1..] + b;
      TextAppend(a[1..], b);
    }
  }

  // ---------------------------------------------------------------------
  // Section nesting
  // ---------------------------------------------------------------------

  /**
   * The section depth after reading `lines` from depth `d`, or `None` when a
   * closing line has no open section to close.
   */
  function Nest(lines: seq<Line>, d: nat): Option<nat> {
    if |lines| == 0 then Some(d)
    else match lines[0]
      case OpenSection(_) => Nest(lines[1..], d + 1)
      case CloseSection => if d == 0 then None else Nest(lines[1..], d - 1)
      case ElementLine(_) => Nest(lines[1..], d)
  }

  /** Every closing line closes an open section, and every section is closed. */
  predicate WellNested(lines: seq<Line>) {
    Nest(lines, 0) == Some(0)
  }

  lemma {:induction false} NestAppend(a: seq<Line>, b: seq<Line>, d: nat)
    ensures Nest(a + b, d) == (match Nest(a, d) case None => None case Some(e) => Nest(b, e))
  {
    if |a| == 0 {
      assert a + b == b;
    } else {
      assert (a + b)[0] == a[0];
      assert (a + b)[1..] == a[1..] + b;
      match a[0]
      case OpenSection(_) => NestAppend(a[1..], b, d + 1);
      case CloseSection => if d > 0 { NestAppend(a[1..], b, d - 1); }
      case ElementLine(_) => NestAppend(a[1..], b, d);
    }
  }

  /** The lines of any node sequence return to the depth they started at and never close too much. */
  lemma {:induction false} LinesNest(nodes: seq<Node>, d: nat)
    ensures Nest(Lines(nodes), d) == Some(d)
    decreases nodes
  {
    if |nodes| > 0 {
      NodeLinesNest(nodes[0], d);
      LinesNest(nodes[1..], d);
      NestAppend(NodeLines(nodes[0]), Lines(nodes[1..]), d);
    }
  }

  lemma {:induction false} NodeLinesNest(n: Node, d: nat)
    ensures Nest(NodeLines(n), d) == Some(d)
    decreases n
  {
    match n
    case Leaf(e) =>
    case Sect(c, children) =>
      LinesNest(children, d + 1);
      var inner := Lines(children);
      NestAppend([OpenSection(c)] + inner, [CloseSection], d);
      NestAppend([OpenSection(c)], inner, d);
  }

  lemma LinesWellNested(nodes: seq<Node>)
    ensures WellNested(Lines(nodes))
  {
    LinesNest(nodes, 0);
  }

  // ---------------------------------------------------------------------
  // Emission order
  // ---------------------------------------------------------------------

  function TagOf(n: Node): string {
    match n
    case Leaf(e) => e.tag
    case Sect(_, _) => "section"
  }

  /** Position of `t` in `tags`, or `|tags|` when absent. */
  function IndexOf(tags: seq<string>, t: string): (r: nat)
    ensures r <= |tags|
    ensures r < |tags| ==> tags[r] == t
  {
    if |tags| == 0 then 0
    else if tags[0] == t then 0
    else 1 + IndexOf(tags[1..], t)
  }

  predicate Distinct(tags: seq<string>) {
    forall i, j :: 0 <= i < j < |tags| ==> tags[i] != tags[j]
  }

  /** No string of `a` occurs in `b`. */
  predicate Disjoint(a: seq<string>, b: seq<string>) {
    forall i, j :: 0 <= i < |a| && 0 <= j < |b| ==> a[i] != b[j]
  }

  lemma DistinctConcat(a: seq<string>, b: seq<string>)
    requires Distinct(a) && Distinct(b) && Disjoint(a, b)
    ensures Distinct(a + b)
  {
    var c := a + b;
    forall i, j | 0 <= i < j < |c| ensures c[i] != c[j] {
      if j < |a| {
        assert c[i] == a[i] && c[j] == a[j];
      } else if i < |a| {
        assert c[i] == a[i] && c[j] == b[j - |a|];
      } else {
        assert c[i] == b[i - |a|] && c[j] == b[j - |a|];
      }
    }
  }

  lemma {:induction false} IndexOfDistinct(tags: seq<string>, k: int)
    requires Distinct(tags)
    requires 0 <= k < |tags|
    ensures IndexOf(tags, tags[k]) == k
  {
    if k > 0 {
      assert tags[0] != tags[k];
      assert tags[1..][k - 1] == tags[k];
      IndexOfDistinct(tags[1..], k - 1);
    }
  }

  predicate AllTagged(nodes: seq<Node>, t: string) {
    forall i :: 0 <= i < |nodes| ==> TagOf(nodes[i]) == t
  }

  /** Group `k` holds only nodes tagged `tags[k]`. */
  predicate Grouped(groups: seq<seq<Node>>, tags: seq<string>) {
    |groups| == |tags| && forall k :: 0 <= k < |groups| ==> AllTagged(groups[k], tags[k])
  }

  function Flatten(groups: seq<seq<Node>>): seq<Node> {
    if |groups| == 0 then [] else groups[0] + Flatten(groups[1..])
  }

  /** Node kinds appear in the order `tags` lists them. */
  predicate Ordered(nodes: seq<Node>, tags: seq<string>) {
    forall i, j :: 0 <= i < j < |nodes| ==> IndexOf(tags, TagOf(nodes[i])) <= IndexOf(tags, TagOf(nodes[j]))
  }

  /** Ordered at the top level and inside every section, at any depth. */
  predicate WellOrdered(nodes: seq<Node>, tags: seq<string>)
    decreases nodes
  {
    && Ordered(nodes, tags)
    && forall i :: 0 <= i < |nodes| ==> (nodes[i].Sect? ==> WellOrdered(nodes[i].children, tags))
  }

  lemma {:induction false} FlattenOrderedFrom(groups: seq<seq<Node>>, tags: seq<string>, o: nat)
    requires Grouped(groups, tags) && Distinct(tags)
    requires o <= |groups|
    ensures Ordered(Flatten(groups[o..]), tags)
    ensures forall i :: 0 <= i < |Flatten(groups[o..])| ==> o <= IndexOf(tags, TagOf(Flatten(groups[o..])[i]))
    decreases |groups| - o
  {
    if o < |groups| {
      FlattenOrderedFrom(groups, tags, o + 1);
      var g := groups[o];
      var rest := Flatten(groups[o + 1..]);
      assert groups[o..][1..] == groups[o + 1..];
      var all := Flatten(groups[o..]);
      assert all == g + rest;
      IndexOfDistinct(tags, o);
      assert forall i :: 0 <= i < |g| ==> IndexOf(tags, TagOf(all[i])) == o;
      assert forall i :: |g| <= i < |all| ==> all[i] == rest[i - |g|];
    }
  }

  /** Concatenating groups in tag order yields nodes ordered by tag. */
  lemma FlattenOrdered(groups: seq<seq<Node>>, tags: seq<string>)
    requires Grouped(groups, tags) && Distinct(tags)
    ensures Ordered(Flatten(groups), tags)
  {
    FlattenOrderedFrom(groups, tags, 0);
    assert groups[0..] == groups;
  }

  /** The nodes tagged `t`, in order. */
  function FilterTag(nodes: seq<Node>, t: string): seq<Node> {
    if |nodes| == 0 then []
    else (if TagOf(nodes[0]) == t then [nodes[0]] else []) + FilterTag(nodes[1..], t)
  }

  lemma {:induction false} FilterTagAppend(a: seq<Node>, b: seq<Node>, t: string)
    ensures FilterTag(a + b, t) == FilterTag(a, t) + FilterTag(b, t)
  {
    if |a| == 0 {
      assert a + b == b;
    } else {
      var head := if TagOf(a[0]) == t then [a[0]] else [];
      assert (a + b)[0] == a[0];
      assert (a + b)[1..] == a[1..] + b;
      assert FilterTag(a + b, t) == head + FilterTag(a[1..] + b, t);
      FilterTagAppend(a[1..], b, t);
      assert FilterTag(a, t) == head + FilterTag(a[1..], t);
    }
  }

  lemma {:induction false} FilterTagAll(nodes: seq<Node>, tag: string, t: string)
    requires AllTagged(nodes, tag)
    ensures FilterTag(nodes, t) == (if tag == t then nodes else [])
  {
    if |nodes| > 0 {
      FilterTagAll(nodes[1..], tag, t);
      assert [nodes[0]] + nodes[1..] == nodes;
    }
  }

  /** In grouped output, the nodes with a group's tag are exactly that group, in its order. */
  lemma {:induction false} FilterTagFlatten(groups: seq<seq<Node>>, tags: seq<string>, k: int)
    requires Grouped(groups, tags) && Distinct(tags)
    requires 0 <= k < |groups|
    ensures FilterTag(Flatten(groups), tags[k]) == groups[k]
  {
    FilterTagAppend(groups[0], Flatten(groups[1..]), tags[k]);
    FilterTagAll(groups[0], tags[0], tags[k]);
    if k == 0 {
      FilterTagNone(groups[1..], tags[1..], tags[0]);
    } else {
      assert tags[0] != tags[k];
      assert tags[1..][k - 1] == tags[k];
      FilterTagFlatten(groups[1..], tags[1..], k - 1);
    }
  }

  lemma {:induction false} FilterTagNone(groups: seq<seq<Node>>, tags: seq<string>, t: string)
    requires Grouped(groups, tags)
    requires t !in tags
    ensures FilterTag(Flatten(groups), t) == []
  {
    if |groups| > 0 {
      FilterTagAppend(groups[0], Flatten(groups[1..]), t);
      FilterTagAll(groups[0], tags[0], t);
      FilterTagNone(groups[1..], tags[1..], t);
    }
  }
}
