/**
  The items a graph or a cluster holds — nodes and clusters, which hold
  items in turn — their DOT text, their renaming with a prefix, and the
  builder operations of a cluster.
 */
module Items {

  import opened DotText
  import NodeStyle
  import Nodes
  import Edges

  datatype Item = NodeItem(node: Nodes.Node) | ClusterItem(cluster: Cluster)

  /** A cluster's style is a node style: DOT draws a cluster's border like a node's. */
  datatype Cluster = Cluster(
    id: string,
    style: seq<NodeStyle.NodeStyleItem>,
    items: seq<Item>,
    edges: seq<Edges.Edge>)

  function EdgeTexts(edges: seq<Edges.Edge>): seq<string>
  {
    seq(|edges|, k requires 0 <= k < |edges| => Edges.EdgeText(edges[k]))
  }

  /** The DOT text of an item: a node's statement or a cluster's block. */
  function ItemText(it: Item): string
    decreases it, 0
  {
    match it
    case NodeItem(n) => Nodes.NodeText(n)
    case ClusterItem(c) => ClusterText(c)
  }

  function ItemTexts(items: seq<Item>): seq<string>
    decreases items, 0
  {
    seq(|items|, k requires 0 <= k < |items| => ItemText(items[k]))
  }

  /** The header line of a cluster's block; DOT treats a subgraph as a cluster by its name. */
  function ClusterHeader(id: string): string
  {
    "subgraph cluster_" + id + " {\n"
  }

  /** Each style fragment of a cluster as a statement on its own line. */
  function ClusterStyleLines(style: seq<NodeStyle.NodeStyleItem>): string
  {
    Lines("", Nodes.NodeStyleTexts(style), ";\n")
  }

  /** A cluster's contents: one tab-indented line per item, then one per edge. */
  function ClusterBody(c: Cluster): string
    decreases c, 0
  {
    Lines("\t", ItemTexts(c.items), "\n") + Lines("\t", EdgeTexts(c.edges), "\n")
  }

  /**
    The DOT block of a cluster: the header, one `text;` line per style
    item, one tab-indented line per item and then per edge, and `}`.
   */
  function ClusterText(c: Cluster): string
    decreases c, 1
  {
    ClusterHeader(c.id) + ClusterStyleLines(c.style) + ClusterBody(c) + "}"
  }

  /**
    A cluster's block starts with its header, then its style lines, before
    anything else, and ends with the closing brace.
   */
  lemma ClusterTextFrame(c: Cluster)
    ensures var t := ClusterText(c);
            var h := ClusterHeader(c.id) + ClusterStyleLines(c.style);
            && |h| < |t| && t[..|h|] == h
            && t[|t| - 1] == '}'
  {
    var h := ClusterHeader(c.id) + ClusterStyleLines(c.style);
    var rest := ClusterBody(c) + "}";
    assert ClusterText(c) == h + rest;
    PrefixSlice(h, rest);
  }

  /** The item keeps its kind; its node or cluster is renamed. */
  function RenameItem(it: Item, prefix: string): (r: Item)
    ensures r.NodeItem? <==> it.NodeItem?
    ensures it.NodeItem? ==> r.node == Nodes.RenameNode(it.node, prefix)
    ensures it.ClusterItem? ==> r.cluster == RenameCluster(it.cluster, prefix)
    decreases it, 1
  {
    match it
    case NodeItem(n) => NodeItem(Nodes.RenameNode(n, prefix))
    case ClusterItem(c) => ClusterItem(RenameCluster(c, prefix))
  }

  /** Each item renamed in place: same count, same order. */
  function RenameItems(items: seq<Item>, prefix: string): (r: seq<Item>)
    ensures |r| == |items|
    ensures forall k :: 0 <= k < |items| ==> r[k] == RenameItem(items[k], prefix)
    decreases items, 0
  {
    seq(|items|, k requires 0 <= k < |items| => RenameItem(items[k], prefix))
  }

  /** Each edge renamed in place: same count, same order. */
  function RenameEdges(edges: seq<Edges.Edge>, prefix: string): (r: seq<Edges.Edge>)
    ensures |r| == |edges|
    ensures forall k :: 0 <= k < |edges| ==> r[k] == Edges.RenameEdge(edges[k], prefix)
  {
    seq(|edges|, k requires 0 <= k < |edges| => Edges.RenameEdge(edges[k], prefix))
  }

  /**
    The cluster's id gets the prefix, its style is kept, and every item and
    every edge is renamed in place: same count, same order.
   */
  function RenameCluster(c: Cluster, prefix: string): (r: Cluster)
    ensures r.id == prefix + c.id
    ensures r.style == c.style
    ensures |r.items| == |c.items| && |r.edges| == |c.edges|
    ensures forall k :: 0 <= k < |c.items| ==> r.items[k] == RenameItem(c.items[k], prefix)
    ensures forall k :: 0 <= k < |c.edges| ==> r.edges[k] == Edges.RenameEdge(c.edges[k], prefix)
    decreases c, 1
  {
    Cluster(prefix + c.id, c.style, RenameItems(c.items, prefix), RenameEdges(c.edges, prefix))
  }

  /** Every identifier an item holds, at any depth: node ids, cluster ids, edge endpoints and qualifiers. */
  function ItemIds(it: Item): seq<string>
    decreases it, 1
  {
    match it
    case NodeItem(n) => [n.id]
    case ClusterItem(c) => ClusterIds(c)
  }

  /** The identifiers held by a run of items, then by a run of edges, in order. */
  function ContentIds(items: seq<Item>, edges: seq<Edges.Edge>): seq<string>
    decreases items, 0
  {
    Concat(seq(|items|, k requires 0 <= k < |items| => ItemIds(items[k])))
      + Concat(seq(|edges|, k requires 0 <= k < |edges| => Edges.EdgeIds(edges[k])))
  }

  /** The cluster's own id, then its items' identifiers, then its edges'. */
  function ClusterIds(c: Cluster): seq<string>
    decreases c, 1
  {
    [c.id] + ContentIds(c.items, c.edges)
  }

  /**
    Renaming reaches every depth: the identifiers of a renamed item are the
    item's identifiers, each with the prefix, in the same order, and no
    identifier is added or lost.
   */
  lemma {:induction false} RenameItemIds(it: Item, prefix: string)
    ensures ItemIds(RenameItem(it, prefix)) == PrefixAll(prefix, ItemIds(it))
    decreases it, 1
  {
    match it
    case NodeItem(n) =>
    case ClusterItem(c) => RenameClusterIds(c, prefix);
  }

  /** The identifiers of a renamed cluster are the cluster's own, each with the prefix. */
  lemma {:induction false} RenameClusterIds(c: Cluster, prefix: string)
    ensures ClusterIds(RenameCluster(c, prefix)) == PrefixAll(prefix, ClusterIds(c))
    decreases c, 1
  {
    RenameContentIds(c.items, c.edges, prefix);
    PrefixAllAppend(prefix, [c.id], ContentIds(c.items, c.edges));
  }

  /** The identifiers of renamed items and edges are the originals', each with the prefix. */
  lemma {:induction false} RenameContentIds(items: seq<Item>, edges: seq<Edges.Edge>, prefix: string)
    ensures ContentIds(RenameItems(items, prefix), RenameEdges(edges, prefix))
         == PrefixAll(prefix, ContentIds(items, edges))
    decreases items, 0
  {
    var ri := RenameItems(items, prefix);
    var re := RenameEdges(edges, prefix);
    var itemParts := seq(|items|, k requires 0 <= k < |items| => ItemIds(items[k]));
    var edgeParts := seq(|edges|, k requires 0 <= k < |edges| => Edges.EdgeIds(edges[k]));
    var rItemParts := seq(|ri|, k requires 0 <= k < |ri| => ItemIds(ri[k]));
    var rEdgeParts := seq(|re|, k requires 0 <= k < |re| => Edges.EdgeIds(re[k]));
    forall k | 0 <= k < |items|
      ensures rItemParts[k] == PrefixAll(prefix, itemParts[k])
    {
      RenameItemIds(items[k], prefix);
    }
    forall k | 0 <= k < |edges|
      ensures rEdgeParts[k] == PrefixAll(prefix, edgeParts[k])
    {
      Edges.RenameEdgeIds(edges[k], prefix);
    }
    PrefixAllConcat(prefix, itemParts);
    PrefixAllConcat(prefix, edgeParts);
    assert rItemParts == seq(|itemParts|, k requires 0 <= k < |itemParts| => PrefixAll(prefix, itemParts[k]));
    assert rEdgeParts == seq(|edgeParts|, k requires 0 <= k < |edgeParts| => PrefixAll(prefix, edgeParts[k]));
    PrefixAllAppend(prefix, Concat(itemParts), Concat(edgeParts));
  }

  /** Renaming an item with the empty prefix changes nothing, at any depth. */
  lemma {:induction false} RenameItemEmpty(it: Item)
    ensures RenameItem(it, "") == it
    decreases it, 1
  {
    match it
    case NodeItem(n) => Nodes.RenameNodeEmpty(n);
    case ClusterItem(c) => RenameClusterEmpty(c);
  }

  /** Renaming a cluster with the empty prefix changes nothing, at any depth. */
  lemma {:induction false} RenameClusterEmpty(c: Cluster)
    ensures RenameCluster(c, "") == c
    decreases c, 1
  {
    RenameItemsEmpty(c.items);
    RenameEdgesEmpty(c.edges);
    assert "" + c.id == c.id;
  }

  lemma {:induction false} RenameItemsEmpty(items: seq<Item>)
    ensures RenameItems(items, "") == items
    decreases items, 0
  {
    forall k | 0 <= k < |items|
      ensures RenameItems(items, "")[k] == items[k]
    {
      RenameItemEmpty(items[k]);
    }
  }

  lemma RenameEdgesEmpty(edges: seq<Edges.Edge>)
    ensures RenameEdges(edges, "") == edges
  {
    forall k | 0 <= k < |edges|
      ensures RenameEdges(edges, "")[k] == edges[k]
    {
      Edges.RenameEdgeEmpty(edges[k]);
    }
  }

  /** Renaming an item with `p` and then with `q` is renaming it once with `q + p`. */
  lemma {:induction false} RenameItemCompose(it: Item, p: string, q: string)
    ensures RenameItem(RenameItem(it, p), q) == RenameItem(it, q + p)
    decreases it, 1
  {
    match it
    case NodeItem(n) => Nodes.RenameNodeCompose(n, p, q);
    case ClusterItem(c) => RenameClusterCompose(c, p, q);
  }

  /** Renaming a cluster with `p` and then with `q` is renaming it once with `q + p`. */
  lemma {:induction false} RenameClusterCompose(c: Cluster, p: string, q: string)
    ensures RenameCluster(RenameCluster(c, p), q) == RenameCluster(c, q + p)
    decreases c, 1
  {
    RenameItemsCompose(c.items, p, q);
    RenameEdgesCompose(c.edges, p, q);
    assert q + (p + c.id) == (q + p) + c.id;
  }

  lemma {:induction false} RenameItemsCompose(items: seq<Item>, p: string, q: string)
    ensures RenameItems(RenameItems(items, p), q) == RenameItems(items, q + p)
    decreases items, 0
  {
    forall k | 0 <= k < |items|
      ensures RenameItems(RenameItems(items, p), q)[k] == RenameItems(items, q + p)[k]
    {
      RenameItemCompose(items[k], p, q);
    }
  }

  lemma RenameEdgesCompose(edges: seq<Edges.Edge>, p: string, q: string)
    ensures RenameEdges(RenameEdges(edges, p), q) == RenameEdges(edges, q + p)
  {
    forall k | 0 <= k < |edges|
      ensures RenameEdges(RenameEdges(edges, p), q)[k] == RenameEdges(edges, q + p)[k]
    {
      Edges.RenameEdgeCompose(edges[k], p, q);
    }
  }

  /** A renamed node item prints as the node's statement with the prefix in front. */
  lemma RenameNodeItemText(n: Nodes.Node, prefix: string)
    ensures ItemText(RenameItem(NodeItem(n), prefix)) == prefix + Nodes.NodeText(n)
  {
    Nodes.RenameNodeText(n, prefix);
  }

  /** A renamed cluster's block opens with the prefixed id, then the same style lines as before. */
  lemma RenameClusterHeader(c: Cluster, prefix: string)
    ensures var t := ClusterText(RenameCluster(c, prefix));
            var h := ClusterHeader(prefix + c.id) + ClusterStyleLines(c.style);
            |h| <= |t| && t[..|h|] == h
  {
    var r := RenameCluster(c, prefix);
    PrefixSlice(ClusterHeader(r.id) + ClusterStyleLines(r.style), ClusterBody(r) + "}");
  }

  /** `add_item`: one more item at the end; nothing else changes. */
  function AddItem(c: Cluster, it: Item): (r: Cluster)
    ensures r.id == c.id && r.style == c.style && r.edges == c.edges
    ensures |r.items| == |c.items| + 1 && r.items[..|c.items|] == c.items && r.items[|c.items|] == it
  {
    c.(items := c.items + [it])
  }

  /** `add_edge`: one more edge at the end; nothing else changes. */
  function AddEdge(c: Cluster, e: Edges.Edge): (r: Cluster)
    ensures r.id == c.id && r.style == c.style && r.items == c.items
    ensures |r.edges| == |c.edges| + 1 && r.edges[..|c.edges|] == c.edges && r.edges[|c.edges|] == e
  {
    c.(edges := c.edges + [e])
  }

  /**
    Adding an item inserts exactly one line, the tab-indented item text,
    after the cluster's last item line and before its first edge line.
   */
  lemma AddItemText(c: Cluster, it: Item)
    ensures ClusterText(AddItem(c, it))
         == ClusterHeader(c.id) + ClusterStyleLines(c.style)
            + Lines("\t", ItemTexts(c.items), "\n") + ("\t" + ItemText(it) + "\n")
            + Lines("\t", EdgeTexts(c.edges), "\n") + "}"
  {
    var r := AddItem(c, it);
    AddItemBody(c, it);
    ConcatRegroup(ClusterHeader(c.id) + ClusterStyleLines(c.style), Lines("\t", ItemTexts(c.items), "\n"),
                  "\t" + ItemText(it) + "\n", Lines("\t", EdgeTexts(c.edges), "\n"), "}");
  }

  lemma AddItemBody(c: Cluster, it: Item)
    ensures ClusterBody(AddItem(c, it))
         == Lines("\t", ItemTexts(c.items), "\n") + ("\t" + ItemText(it) + "\n") + Lines("\t", EdgeTexts(c.edges), "\n")
  {
    var r := AddItem(c, it);
    assert ItemTexts(r.items) == ItemTexts(c.items) + [ItemText(it)];
    LinesSnoc("\t", ItemTexts(c.items), ItemText(it), "\n");
  }

  /**
    Adding an edge inserts exactly one line, the tab-indented edge
    statement, right before the closing brace.
   */
  lemma AddEdgeText(c: Cluster, e: Edges.Edge)
    ensures ClusterText(AddEdge(c, e))
         == ClusterHeader(c.id) + ClusterStyleLines(c.style) + ClusterBody(c)
            + ("\t" + Edges.EdgeText(e) + "\n") + "}"
  {
    var r := AddEdge(c, e);
    AddEdgeBody(c, e);
    ConcatTail(ClusterHeader(c.id) + ClusterStyleLines(c.style), ClusterBody(c), "\t" + Edges.EdgeText(e) + "\n", "}");
  }

  lemma AddEdgeBody(c: Cluster, e: Edges.Edge)
    ensures ClusterBody(AddEdge(c, e)) == ClusterBody(c) + ("\t" + Edges.EdgeText(e) + "\n")
  {
    var r := AddEdge(c, e);
    assert EdgeTexts(r.edges) == EdgeTexts(c.edges) + [Edges.EdgeText(e)];
    LinesSnoc("\t", EdgeTexts(c.edges), Edges.EdgeText(e), "\n");
    Assoc(Lines("\t", ItemTexts(c.items), "\n"), Lines("\t", EdgeTexts(c.edges), "\n"), "\t" + Edges.EdgeText(e) + "\n");
  }

  /** A cluster `x` holding the node `n`, renamed with `p_`, prints as a block around `p_n;`. */
  lemma RenamedClusterExample()
    ensures ClusterText(RenameCluster(Cluster("x", [], [NodeItem(Nodes.Node("n", []))], []), "p_"))
         == "subgraph cluster_p_x {\n\tp_n;\n}"
  {
    var c := Cluster("x", [], [NodeItem(Nodes.Node("n", []))], []);
    var r := RenameCluster(c, "p_");
    assert r.id == "p_x";
    assert Nodes.RenameNode(Nodes.Node("n", []), "p_") == Nodes.Node("p_n", []);
    assert r.items[0] == NodeItem(Nodes.Node("p_n", []));
    assert r.items == [NodeItem(Nodes.Node("p_n", []))];
    assert Nodes.NodeText(Nodes.Node("p_n", [])) == "p_n;";
    assert ItemText(r.items[0]) == "p_n;";
    assert ItemTexts(r.items) == ["p_n;"];
    LinesOne("\t", "p_n;", "\n");
    assert Lines("\t", ItemTexts(r.items), "\n") == "\tp_n;\n";
    assert ClusterStyleLines(r.style) == "";
    assert Lines("\t", EdgeTexts(r.edges), "\n") == "";
  }

}
