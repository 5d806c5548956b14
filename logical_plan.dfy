/**
 * The plan-tree data model shared by the rewriter and the cost-based search:
 * node kinds, per-table statistics, the property dictionary, the plan node
 * itself, its serialised view (`to_dict`) and its indented text view (`__str__`).
 */
module Plan {
  import opened Wrappers
  import opened Strings

  /** The closed set of operator kinds. */
  datatype NodeType = Scan | Filter | Project | Join | Aggregate | Sort | Limit

  /** The enum's value string. */
  function KindName(k: NodeType): string
  {
    match k
    case Scan => "Scan"
    case Filter => "Filter"
    case Project => "Project"
    case Join => "Join"
    case Aggregate => "Aggregate"
    case Sort => "Sort"
    case Limit => "Limit"
  }

  /** The enum member with a given value string, if any (`NodeType(name)`). */
  function KindOf(name: string): (k: Option<NodeType>)
    ensures k.Some? ==> KindName(k.value) == name
    ensures k.None? ==> forall t :: KindName(t) != name
  {
    if name == "Scan" then Some(Scan)
    else if name == "Filter" then Some(Filter)
    else if name == "Project" then Some(Project)
    else if name == "Join" then Some(Join)
    else if name == "Aggregate" then Some(Aggregate)
    else if name == "Sort" then Some(Sort)
    else if name == "Limit" then Some(Limit)
    else None
  }

  // ---------------------------------------------------------------------------
  // Properties: an insertion-ordered dictionary from string keys to values

  /** The values the plan builder stores: strings, the LIMIT count, the column list. */
  datatype Value = Str(s: string) | Int(i: int) | StrList(items: seq<string>)

  datatype Prop = Prop(key: string, value: Value)

  /** A Python dict keeps insertion order; it is kept here as a list of entries. */
  type Props = seq<Prop>

  /** `props.get(k)`: the first entry for `k`. */
  function Get(p: Props, k: string): (r: Option<Value>)
    ensures r.Some? <==> exists i :: 0 <= i < |p| && p[i].key == k
    ensures r.Some? ==> exists i ::
      (0 <= i < |p| && p[i].key == k && p[i].value == r.value && forall j :: 0 <= j < i ==> p[j].key != k)
    decreases |p|
  {
    if |p| == 0 then None
    else if p[0].key == k then Some(p[0].value)
    else
      var r := Get(p[1..], k);
      assert r.Some? ==> exists i ::
        (1 <= i < |p| && p[i].key == k && p[i].value == r.value && forall j :: 0 <= j < i ==> p[j].key != k) by {
        if r.Some? {
          var i :| 0 <= i < |p[1..]| && p[1..][i].key == k && p[1..][i].value == r.value
            && forall j :: 0 <= j < i ==> p[1..][j].key != k;
          assert forall j :: 0 <= j < i + 1 ==> p[j].key != k by {
            forall j | 0 <= j < i + 1 ensures p[j].key != k {
              if j > 0 { assert p[j] == p[1..][j - 1]; }
            }
          }
          assert p[i + 1] == p[1..][i];
        }
      }
      r
  }

  /** `props.get(k, "")` where the core treats the value as a string. */
  function Text(p: Props, k: string): string
  {
    match Get(p, k)
    case Some(Str(s)) => s
    case _ => ""
  }

  /** `props[k] = v`: update the entry in place, or append a new one. */
  function Put(p: Props, k: string, v: Value): (r: Props)
    ensures Get(r, k) == Some(v)
    ensures forall k' :: k' != k ==> Get(r, k') == Get(p, k')
    decreases |p|
  {
    if |p| == 0 then [Prop(k, v)]
    else if p[0].key == k then [Prop(k, v)] + p[1..]
    else (assert ([p[0]] + Put(p[1..], k, v))[1..] == Put(p[1..], k, v);
          [p[0]] + Put(p[1..], k, v))
  }

  /** No key occurs twice, as in a Python dict. */
  predicate UniqueKeys(p: Props)
  {
    forall i, j :: 0 <= i < j < |p| ==> p[i].key != p[j].key
  }

  /** Assignment keeps the keys distinct. */
  lemma {:induction false} PutKeepsUniqueKeys(p: Props, k: string, v: Value)
    requires UniqueKeys(p)
    ensures UniqueKeys(Put(p, k, v))
    decreases |p|
  {
    if |p| > 0 && p[0].key != k {
      var rest := Put(p[1..], k, v);
      PutKeepsUniqueKeys(p[1..], k, v);
      assert Put(p, k, v) == [p[0]] + rest;
      assert forall i :: 0 <= i < |p[1..]| ==> p[1..][i].key == p[i + 1].key != p[0].key;
      assert Get(p[1..], p[0].key).None?;
      assert Get(rest, p[0].key).None?;
    } else if |p| > 0 {
      assert forall i :: 0 < i < |Put(p, k, v)| ==> Put(p, k, v)[i] == p[i];
    }
  }

  /** Assigning the same key twice is the same as assigning the second value once. */
  lemma {:induction false} PutTwice(p: Props, k: string, v: Value, w: Value)
    ensures Put(Put(p, k, v), k, w) == Put(p, k, w)
    decreases |p|
  {
    if |p| > 0 && p[0].key != k {
      PutTwice(p[1..], k, v, w);
      assert Put(p, k, v)[1..] == Put(p[1..], k, v);
    }
  }

  /** The dictionary as a map, as dict equality sees it. */
  function ToMap(p: Props): map<string, Value>
    decreases |p|
  {
    if |p| == 0 then map[] else ToMap(p[1..])[p[0].key := p[0].value]
  }

  /** The dictionary holds exactly the keys present, each with the value a lookup finds. */
  lemma {:induction false} ToMapAgreesWithGet(p: Props)
    ensures forall k :: (k in ToMap(p) <==> Get(p, k).Some?) && (k in ToMap(p) ==> ToMap(p)[k] == Get(p, k).value)
    decreases |p|
  {
    if |p| > 0 {
      ToMapAgreesWithGet(p[1..]);
    }
  }

  // ---------------------------------------------------------------------------
  // Statistics and plan nodes

  /** Per-table statistics; every field defaults to zero (or None). */
  datatype Statistics = Statistics(
    rowCount: int,
    distinctCount: int,
    nullCount: int,
    minVal: Option<Value>,
    maxVal: Option<Value>,
    dataSize: int)

  /** `Statistics()` */
  const DefaultStatistics: Statistics := Statistics(0, 0, 0, None, None, 0)

  /** A plan node. Rows are a real because a join's cardinality estimate is a float. */
  datatype Node = Node(
    kind: NodeType,
    children: seq<Node>,
    properties: Props,
    estimatedCost: real,
    estimatedRows: real,
    statistics: Statistics)

  /** `LogicalNode(kind, children, properties)`: no estimate yet, default statistics. */
  function NewNode(kind: NodeType, children: seq<Node>, properties: Props): Node
  {
    Node(kind, children, properties, 0.0, 0.0, DefaultStatistics)
  }

  /** A node built with only its kind has no children, no properties and zero estimates. */
  lemma FreshNode(k: NodeType)
    ensures var n := NewNode(k, [], []);
      && n.kind == k && n.children == [] && n.properties == [] && ToMap(n.properties) == map[]
      && n.estimatedCost == 0.0 && n.estimatedRows == 0.0
      && n.statistics.rowCount == 0 && n.statistics.distinctCount == 0
      && n.statistics.nullCount == 0 && n.statistics.dataSize == 0
      && n.statistics.minVal == None && n.statistics.maxVal == None
  {
  }

  function SumOf(xs: seq<nat>): nat
    decreases |xs|
  {
    if |xs| == 0 then 0 else SumOf(xs[..|xs| - 1]) + xs[|xs| - 1]
  }

  /** Number of nodes in a tree. */
  function Size(n: Node): (s: nat)
    ensures s >= 1
    decreases n
  {
    1 + SumOf(seq(|n.children|, i requires 0 <= i < |n.children| => Size(n.children[i])))
  }

  // ---------------------------------------------------------------------------
  // `to_dict`: the serialised tree

  datatype Json =
    | JString(str: string)
    | JNumber(num: real)
    | JProps(props: Props)
    | JArray(items: seq<Json>)
    | JObject(members: seq<Member>)

  datatype Member = Member(key: string, value: Json)

  const DictKeys: seq<string> := ["node_type", "properties", "estimated_cost", "estimated_rows", "children"]

  function MemberKeys(ms: seq<Member>): seq<string>
  {
    seq(|ms|, i requires 0 <= i < |ms| => ms[i].key)
  }

  function ToDict(n: Node): Json
    decreases n
  {
    JObject([
      Member("node_type", JString(KindName(n.kind))),
      Member("properties", JProps(n.properties)),
      Member("estimated_cost", JNumber(n.estimatedCost)),
      Member("estimated_rows", JNumber(n.estimatedRows)),
      Member("children", JArray(seq(|n.children|, i requires 0 <= i < |n.children| => ToDict(n.children[i]))))
    ])
  }

  /** Reads back what `ToDict` writes; statistics are not serialised, so they come back as defaults. */
  function FromDict(j: Json): Option<Node>
    decreases j
  {
    match j
    case JObject(ms) =>
      if MemberKeys(ms) != DictKeys then None
      else
        (match (ms[0].value, ms[1].value, ms[2].value, ms[3].value, ms[4].value)
         case (JString(name), JProps(p), JNumber(c), JNumber(r), JArray(items)) =>
           var kids := seq(|items|, i requires 0 <= i < |items| => FromDict(items[i]));
           if KindOf(name).Some? && forall i :: 0 <= i < |kids| ==> kids[i].Some? then
             Some(Node(KindOf(name).value, seq(|kids|, i requires 0 <= i < |kids| => kids[i].value), p, c, r, DefaultStatistics))
           else None
         case _ => None)
    case _ => None
  }

  /** The tree with every node's statistics reset to the default. */
  function WithoutStatistics(n: Node): (r: Node)
    decreases n
  {
    Node(n.kind, seq(|n.children|, i requires 0 <= i < |n.children| => WithoutStatistics(n.children[i])),
         n.properties, n.estimatedCost, n.estimatedRows, DefaultStatistics)
  }

  /** Every serialised node carries exactly the five keys, in order, and never the statistics. */
  lemma ToDictKeys(n: Node)
    ensures ToDict(n).JObject? && MemberKeys(ToDict(n).members) == DictKeys
    ensures "statistics" !in MemberKeys(ToDict(n).members) && "id" !in MemberKeys(ToDict(n).members)
  {
  }

  /**
   * The serialised tree determines the tree up to statistics: kind, properties,
   * cost, rows and the children, in order and with the same count, are copied at every node.
   */
  lemma {:induction false} ToDictRoundTrip(n: Node)
    ensures FromDict(ToDict(n)) == Some(WithoutStatistics(n))
    decreases n
  {
    var items := seq(|n.children|, i requires 0 <= i < |n.children| => ToDict(n.children[i]));
    var ms := ToDict(n).members;
    assert ms[4].value == JArray(items);
    assert MemberKeys(ms) == DictKeys;
    var kids := seq(|items|, i requires 0 <= i < |items| => FromDict(items[i]));
    forall i | 0 <= i < |n.children|
      ensures kids[i] == Some(WithoutStatistics(n.children[i]))
    {
      ToDictRoundTrip(n.children[i]);
    }
    assert seq(|kids|, i requires 0 <= i < |kids| => kids[i].value) == WithoutStatistics(n).children;
    assert KindOf(KindName(n.kind)) == Some(n.kind) by {
      match n.kind
      case Scan => case Filter => case Project => case Join =>
      case Aggregate => case Sort => case Limit =>
    }
  }

  /** Serialisation keeps the shape: the children array lines up with the children. */
  lemma ToDictShape(n: Node, i: nat)
    requires i < |n.children|
    ensures ToDict(n).members[4].value.JArray?
    ensures |ToDict(n).members[4].value.items| == |n.children|
    ensures ToDict(n).members[4].value.items[i] == ToDict(n.children[i])
  {
  }

  // ---------------------------------------------------------------------------
  // `__str__`: the indented text view

  /** How numbers and property values are printed (`:.2f` and `str(v)`), left abstract. */
  datatype Format = Format(cost: real -> string, rows: real -> string, value: Value -> string)

  function Indent(level: nat): (s: string)
    ensures |s| == 2 * level && forall i :: 0 <= i < |s| ==> s[i] == ' '
  {
    seq(2 * level, _ => ' ')
  }

  function PropItems(p: Props, fmt: Format): seq<string>
  {
    seq(|p|, i requires 0 <= i < |p| => p[i].key + "=" + fmt.value(p[i].value))
  }

  /** `", ".join(f"{k}={v}" ...)` */
  function PropsText(p: Props, fmt: Format): string
  {
    JoinWith(", ", PropItems(p, fmt))
  }

  /** The line printed for one node at a given depth. */
  function Header(n: Node, level: nat, fmt: Format): string
  {
    var costInfo := "cost=" + fmt.cost(n.estimatedCost) + ", rows=" + fmt.rows(n.estimatedRows);
    var props := PropsText(n.properties, fmt);
    var line := Indent(level) + KindName(n.kind) + "(" + costInfo + ")";
    if props != "" then line + " [" + props + "]" else line
  }

  /** `node.__str__(level)` */
  function Render(n: Node, level: nat, fmt: Format): string
    decreases n
  {
    Header(n, level, fmt) + Concat(ChildTexts(n, level, fmt))
  }

  function ChildTexts(n: Node, level: nat, fmt: Format): seq<string>
    decreases n, 0
  {
    seq(|n.children|, i requires 0 <= i < |n.children| => "\n" + Render(n.children[i], level + 1, fmt))
  }

  /** The `__str__` loop: append each child's text, one line break before each. */
  method ToString(n: Node, level: nat, fmt: Format) returns (result: string)
    ensures result == Render(n, level, fmt)
    decreases n
  {
    ghost var header := Header(n, level, fmt);
    ghost var texts := ChildTexts(n, level, fmt);
    result := Header(n, level, fmt);
    var i := 0;
    while i < |n.children|
      invariant 0 <= i <= |n.children|
      invariant result == header + Concat(texts[..i])
    {
      var child := ToString(n.children[i], level + 1, fmt);
      ConcatStep(texts, i);
      AppendAssoc(result, "\n", child);
      AppendAssoc(header, Concat(texts[..i]), texts[i]);
      result := result + "\n" + child;
      i := i + 1;
    }
    assert texts[..|n.children|] == texts;
  }

  /** Appending one line break and one child text extends the concatenation by that text. */
  lemma ConcatStep(texts: seq<string>, i: nat)
    requires i < |texts|
    ensures Concat(texts[..i + 1]) == Concat(texts[..i]) + texts[i]
  {
    assert texts[..i + 1][..i] == texts[..i];
  }

  /** A node and its depth, as met in a preorder walk. */
  datatype Entry = Entry(node: Node, depth: nat)

  /** The nodes of a tree in preorder, each with its depth below the root's `level`. */
  function Entries(n: Node, level: nat): (es: seq<Entry>)
    ensures |es| >= 1 && es[0] == Entry(n, level)
    decreases n
  {
    [Entry(n, level)] + Flatten(seq(|n.children|, i requires 0 <= i < |n.children| => Entries(n.children[i], level + 1)))
  }

  /** The lines of the text view: one header per node, in preorder. */
  function Lines(n: Node, level: nat, fmt: Format): (ls: seq<string>)
    ensures |ls| >= 1
    decreases n
  {
    [Header(n, level, fmt)] + Flatten(seq(|n.children|, i requires 0 <= i < |n.children| => Lines(n.children[i], level + 1, fmt)))
  }

  lemma {:induction false} FlattenCons(h: string, ls: seq<seq<string>>)
    requires forall i :: 0 <= i < |ls| ==> |ls[i]| > 0
    ensures JoinWith("\n", [h] + Flatten(ls)) == h + Concat(seq(|ls|, i requires 0 <= i < |ls| => "\n" + JoinWith("\n", ls[i])))
    decreases |ls|
  {
    var parts := seq(|ls|, i requires 0 <= i < |ls| => "\n" + JoinWith("\n", ls[i]));
    if |ls| == 0 {
      assert [h] + Flatten(ls) == [h];
    } else {
      var init, last := ls[..|ls| - 1], ls[|ls| - 1];
      FlattenCons(h, init);
      assert parts[..|ls| - 1] == seq(|init|, i requires 0 <= i < |init| => "\n" + JoinWith("\n", init[i]));
      assert [h] + Flatten(ls) == ([h] + Flatten(init)) + last;
      JoinWithAppend("\n", [h] + Flatten(init), last);
      calc {
        JoinWith("\n", [h] + Flatten(ls));
        JoinWith("\n", [h] + Flatten(init)) + "\n" + JoinWith("\n", last);
        (h + Concat(parts[..|ls| - 1])) + parts[|ls| - 1];
        h + (Concat(parts[..|ls| - 1]) + parts[|ls| - 1]);
        h + Concat(parts);
      }
    }
  }

  /** `__str__` produces exactly the lines of `Lines`, separated by line breaks. */
  lemma {:induction false} RenderIsLines(n: Node, level: nat, fmt: Format)
    ensures Render(n, level, fmt) == JoinWith("\n", Lines(n, level, fmt))
    decreases n
  {
    var ls := seq(|n.children|, i requires 0 <= i < |n.children| => Lines(n.children[i], level + 1, fmt));
    forall i | 0 <= i < |n.children|
      ensures Render(n.children[i], level + 1, fmt) == JoinWith("\n", ls[i])
    {
      RenderIsLines(n.children[i], level + 1, fmt);
    }
    FlattenCons(Header(n, level, fmt), ls);
    assert ChildTexts(n, level, fmt) == seq(|ls|, i requires 0 <= i < |ls| => "\n" + JoinWith("\n", ls[i]));
  }

  lemma {:induction false} FlattenLines(es: seq<seq<Entry>>, ls: seq<seq<string>>, fmt: Format)
    requires |es| == |ls|
    requires forall i :: 0 <= i < |es| ==> |es[i]| == |ls[i]|
    requires forall i, j :: 0 <= i < |es| && 0 <= j < |es[i]| ==> ls[i][j] == Header(es[i][j].node, es[i][j].depth, fmt)
    ensures |Flatten(es)| == |Flatten(ls)|
    ensures forall j :: 0 <= j < |Flatten(es)| ==> Flatten(ls)[j] == Header(Flatten(es)[j].node, Flatten(es)[j].depth, fmt)
    decreases |es|
  {
    if |es| > 0 {
      FlattenLines(es[..|es| - 1], ls[..|ls| - 1], fmt);
    }
  }

  lemma {:induction false} FlattenSizes(es: seq<seq<Entry>>, sizes: seq<nat>)
    requires |es| == |sizes|
    requires forall i :: 0 <= i < |es| ==> |es[i]| == sizes[i]
    ensures |Flatten(es)| == SumOf(sizes)
    decreases |es|
  {
    if |es| > 0 {
      FlattenSizes(es[..|es| - 1], sizes[..|sizes| - 1]);
    }
  }

  lemma {:induction false} EntriesCount(n: Node, level: nat)
    ensures |Entries(n, level)| == Size(n)
    decreases n
  {
    var k := |n.children|;
    var es: seq<seq<Entry>> := seq(|n.children|, i requires 0 <= i < |n.children| => Entries(n.children[i], level + 1));
    var sizes: seq<nat> := seq(|n.children|, i requires 0 <= i < |n.children| => Size(n.children[i]));
    forall i | 0 <= i < k ensures |es[i]| == sizes[i] {
      EntriesCount(n.children[i], level + 1);
    }
    FlattenSizes(es, sizes);
  }

  /**
   * One line per node in preorder: there are as many lines as nodes, and line j is
   * the header of the j-th node of the preorder walk, printed at that node's depth.
   */
  lemma {:induction false} LinesArePreorderHeaders(n: Node, level: nat, fmt: Format)
    ensures |Lines(n, level, fmt)| == |Entries(n, level)| == Size(n)
    ensures forall j :: 0 <= j < |Entries(n, level)| ==>
      Lines(n, level, fmt)[j] == Header(Entries(n, level)[j].node, Entries(n, level)[j].depth, fmt)
    decreases n
  {
    EntriesCount(n, level);
    var k := |n.children|;
    var es: seq<seq<Entry>> := seq(|n.children|, i requires 0 <= i < |n.children| => Entries(n.children[i], level + 1));
    var ls: seq<seq<string>> := seq(|n.children|, i requires 0 <= i < |n.children| => Lines(n.children[i], level + 1, fmt));
    forall i | 0 <= i < k
      ensures |es[i]| == |ls[i]|
      ensures forall j :: 0 <= j < |es[i]| ==> ls[i][j] == Header(es[i][j].node, es[i][j].depth, fmt)
    {
      LinesArePreorderHeaders(n.children[i], level + 1, fmt);
    }
    FlattenLines(es, ls, fmt);
    var E := Entries(n, level);
    var L := Lines(n, level, fmt);
    assert E == [Entry(n, level)] + Flatten(es);
    assert L == [Header(n, level, fmt)] + Flatten(ls);
    forall j | 0 <= j < |E| ensures L[j] == Header(E[j].node, E[j].depth, fmt) {
      if j > 0 {
        assert E[j] == Flatten(es)[j - 1];
        assert L[j] == Flatten(ls)[j - 1];
      }
    }
  }

  /** The header of a node at depth d starts with exactly 2·d spaces, then the kind's name. */
  lemma HeaderIndent(n: Node, d: nat, fmt: Format)
    ensures |Header(n, d, fmt)| > 2 * d
    ensures forall i :: 0 <= i < 2 * d ==> Header(n, d, fmt)[i] == ' '
    ensures Header(n, d, fmt)[2 * d] != ' '
    ensures 2 * d + |KindName(n.kind)| <= |Header(n, d, fmt)|
    ensures Header(n, d, fmt)[2 * d..2 * d + |KindName(n.kind)|] == KindName(n.kind)
  {
    var line := Indent(d) + KindName(n.kind) + "(" + "cost=" + fmt.cost(n.estimatedCost) + ", rows=" + fmt.rows(n.estimatedRows) + ")";
    assert Header(n, d, fmt)[..|line|] == line;
    assert line[2 * d] == KindName(n.kind)[0];
    assert line[2 * d..2 * d + |KindName(n.kind)|] == KindName(n.kind);
  }

  lemma {:induction false} JoinWithNonEmpty(sep: string, items: seq<string>)
    requires forall i :: 0 <= i < |items| ==> items[i] != ""
    ensures JoinWith(sep, items) != "" <==> |items| > 0
    decreases |items|
  {
    if |items| > 1 {
      JoinWithNonEmpty(sep, items[..|items| - 1]);
    }
  }

  /** The ` [k=v, ...]` suffix is printed if and only if the node has properties. */
  lemma PropsSuffix(n: Node, d: nat, fmt: Format)
    ensures var line := Indent(d) + KindName(n.kind) + "(" + "cost=" + fmt.cost(n.estimatedCost) + ", rows=" + fmt.rows(n.estimatedRows) + ")";
      && (|n.properties| == 0 ==> Header(n, d, fmt) == line)
      && (|n.properties| > 0 ==> Header(n, d, fmt) == line + " [" + PropsText(n.properties, fmt) + "]")
  {
    var items := PropItems(n.properties, fmt);
    forall i | 0 <= i < |items| ensures items[i] != "" {
      assert items[i][|n.properties[i].key|] == '=';
    }
    JoinWithNonEmpty(", ", items);
  }

  /** `LogicalPlan(root)`: the wrapper the facade returns. */
  class LogicalPlan {
    var root: Node
    var totalCost: real

    constructor (root: Node)
      ensures this.root == root && totalCost == 0.0
    {
      this.root := root;
      totalCost := 0.0;
    }
  }
}
