/**
  The digraph: graph-level style, items and edges; its DOT text; its
  builder operations; and its promotion into a cluster of another graph,
  optionally renaming everything it holds.
 */
module DiGraphs {

  import opened Options
  import opened DotText
  import GraphStyle
  import NodeStyle
  import Nodes
  import Edges
  import Items

  datatype DiGraph = DiGraph(
    style: seq<GraphStyle.GraphStyleItem>,
    items: seq<Items.Item>,
    edges: seq<Edges.Edge>)

  /** `new`: the given graph style, no item and no edge. */
  function NewDiGraph(style: seq<GraphStyle.GraphStyleItem>): (g: DiGraph)
    ensures g.style == style && g.items == [] && g.edges == []
  {
    DiGraph(style, [], [])
  }

  /** Every digraph opens the same way: edges may be clipped at clusters. */
  const GraphHeader: string := "digraph G {\ncompound=true;"

  function GraphStyleTexts(style: seq<GraphStyle.GraphStyleItem>): seq<string>
  {
    seq(|style|, k requires 0 <= k < |style| => GraphStyle.GraphStyleItemText(style[k]))
  }

  /** Each graph style fragment as a statement on a line of its own. */
  function GraphStyleLines(style: seq<GraphStyle.GraphStyleItem>): string
  {
    Lines("\n", GraphStyleTexts(style), ";")
  }

  /** The digraph's contents: one line per item, then one per edge, each led by a newline and a tab. */
  function DiGraphLines(g: DiGraph): string
  {
    Lines("\n\t", Items.ItemTexts(g.items), "") + Lines("\n\t", Items.EdgeTexts(g.edges), "")
  }

  /** The DOT text of a digraph. */
  function DiGraphText(g: DiGraph): string
  {
    GraphHeader + GraphStyleLines(g.style) + DiGraphLines(g) + "\n}"
  }

  /**
    A digraph's text starts with the header and then its style lines,
    before anything else, and ends with a newline and the closing brace.
   */
  lemma DiGraphTextFrame(g: DiGraph)
    ensures var t := DiGraphText(g);
            var h := GraphHeader + GraphStyleLines(g.style);
            && |h| + 2 <= |t| && t[..|h|] == h
            && t[|t| - 2..] == "\n}"
  {
    var h := GraphHeader + GraphStyleLines(g.style);
    var t := DiGraphText(g);
    Assoc(h, DiGraphLines(g), "\n}");
    PrefixSlice(h, DiGraphLines(g) + "\n}");
    SuffixSlice(h + DiGraphLines(g), "\n}");
  }

  /** A graph with no style, no item and no edge is the header and the closing brace. */
  lemma EmptyDiGraphText()
    ensures DiGraphText(NewDiGraph([])) == "digraph G {\ncompound=true;\n}"
  {
    var g := NewDiGraph([]);
    assert GraphStyleLines(g.style) == "";
    assert DiGraphLines(g) == "";
  }

  /** `add_item`: one more item at the end; nothing else changes. */
  function AddItem(g: DiGraph, it: Items.Item): (r: DiGraph)
    ensures r.style == g.style && r.edges == g.edges
    ensures |r.items| == |g.items| + 1 && r.items[..|g.items|] == g.items && r.items[|g.items|] == it
  {
    g.(items := g.items + [it])
  }

  /** `add_edge`: one more edge at the end; nothing else changes. */
  function AddEdge(g: DiGraph, e: Edges.Edge): (r: DiGraph)
    ensures r.style == g.style && r.items == g.items
    ensures |r.edges| == |g.edges| + 1 && r.edges[..|g.edges|] == g.edges && r.edges[|g.edges|] == e
  {
    g.(edges := g.edges + [e])
  }

  /** Items and edges live in separate sequences: adding one never reorders the other. */
  lemma AddItemAddEdgeCommute(g: DiGraph, it: Items.Item, e: Edges.Edge)
    ensures AddEdge(AddItem(g, it), e) == AddItem(AddEdge(g, e), it)
  {
  }

  /**
    Adding an item inserts exactly one line, the item's text after a
    newline and a tab, after the last item line and before the first edge
    line.
   */
  lemma AddItemText(g: DiGraph, it: Items.Item)
    ensures DiGraphText(AddItem(g, it))
         == GraphHeader + GraphStyleLines(g.style)
            + Lines("\n\t", Items.ItemTexts(g.items), "") + ("\n\t" + Items.ItemText(it) + "")
            + Lines("\n\t", Items.EdgeTexts(g.edges), "") + "\n}"
  {
    var r := AddItem(g, it);
    assert Items.ItemTexts(r.items) == Items.ItemTexts(g.items) + [Items.ItemText(it)];
    LinesSnoc("\n\t", Items.ItemTexts(g.items), Items.ItemText(it), "");
    ConcatRegroup(GraphHeader + GraphStyleLines(g.style), Lines("\n\t", Items.ItemTexts(g.items), ""),
                  "\n\t" + Items.ItemText(it) + "", Lines("\n\t", Items.EdgeTexts(g.edges), ""), "\n}");
  }

  /**
    Adding an edge inserts exactly one line, the edge's statement after a
    newline and a tab, right before the closing newline and brace.
   */
  lemma AddEdgeText(g: DiGraph, e: Edges.Edge)
    ensures DiGraphText(AddEdge(g, e))
         == GraphHeader + GraphStyleLines(g.style) + DiGraphLines(g) + ("\n\t" + Edges.EdgeText(e) + "") + "\n}"
  {
    var r := AddEdge(g, e);
    assert Items.EdgeTexts(r.edges) == Items.EdgeTexts(g.edges) + [Edges.EdgeText(e)];
    LinesSnoc("\n\t", Items.EdgeTexts(g.edges), Edges.EdgeText(e), "");
    Assoc(Lines("\n\t", Items.ItemTexts(g.items), ""), Lines("\n\t", Items.EdgeTexts(g.edges), ""), "\n\t" + Edges.EdgeText(e) + "");
    Assoc(GraphHeader + GraphStyleLines(g.style), DiGraphLines(g), "\n\t" + Edges.EdgeText(e) + "");
  }

  /** The graph built by adding two unstyled nodes `A` and `B`, then an unstyled edge from `A` to `B`. */
  function TwoNodesOneEdge(): DiGraph
  {
    var a := Items.NodeItem(Nodes.Node("A", []));
    var b := Items.NodeItem(Nodes.Node("B", []));
    var e := Edges.Edge("A", None, "B", None, []);
    AddEdge(AddItem(AddItem(NewDiGraph([]), a), b), e)
  }

  lemma TwoNodesOneEdgeParts()
    ensures Items.ItemTexts(TwoNodesOneEdge().items) == ["A;", "B;"]
    ensures Items.EdgeTexts(TwoNodesOneEdge().edges) == ["A->B;"]
    ensures TwoNodesOneEdge().style == []
  {
    var a := Items.NodeItem(Nodes.Node("A", []));
    var b := Items.NodeItem(Nodes.Node("B", []));
    var e := Edges.Edge("A", None, "B", None, []);
    assert TwoNodesOneEdge().items == [a, b] && TwoNodesOneEdge().edges == [e];
    assert Items.ItemText(a) == "A;" && Items.ItemText(b) == "B;";
    assert Edges.EdgeAttrs(e) == [];
    assert Edges.EdgeText(e) == "A->B;";
  }

  lemma TwoNodesOneEdgeLines()
    ensures DiGraphLines(TwoNodesOneEdge()) == "\n\tA;" + "\n\tB;" + "\n\tA->B;"
  {
    TwoNodesOneEdgeParts();
    LinesTwo("\n\t", "A;", "B;", "");
    LinesOne("\n\t", "A->B;", "");
  }

  /** Two nodes and an edge between them, as a DOT text. */
  lemma TwoNodesOneEdgeText()
    ensures DiGraphText(TwoNodesOneEdge()) == "digraph G {\ncompound=true;\n\tA;\n\tB;\n\tA->B;\n}"
  {
    TwoNodesOneEdgeLines();
    assert GraphStyleLines(TwoNodesOneEdge().style) == "";
  }

  /**
    `as_cluster`: a cluster with the given id and node style that holds the
    digraph's items and edges, as they are without a prefix and each
    renamed with it otherwise. The id is never prefixed.
   */
  function AsCluster(g: DiGraph, newName: string, style: seq<NodeStyle.NodeStyleItem>, prefix: Option<string>): (c: Items.Cluster)
    ensures c.id == newName && c.style == style
    ensures |c.items| == |g.items| && |c.edges| == |g.edges|
    ensures prefix.None? ==> c.items == g.items && c.edges == g.edges
    ensures prefix.Some? ==>
      && (forall k :: 0 <= k < |g.items| ==> c.items[k] == Items.RenameItem(g.items[k], prefix.value))
      && (forall k :: 0 <= k < |g.edges| ==> c.edges[k] == Edges.RenameEdge(g.edges[k], prefix.value))
  {
    match prefix
    case None => Items.Cluster(newName, style, g.items, g.edges)
    case Some(p) => Items.Cluster(newName, style, Items.RenameItems(g.items, p), Items.RenameEdges(g.edges, p))
  }

  /** The identifiers a digraph holds: its items', at any depth, then its edges'. */
  function DiGraphIds(g: DiGraph): seq<string>
  {
    Items.ContentIds(g.items, g.edges)
  }

  /**
    With a prefix, the cluster's identifiers are its new id followed by
    every identifier of the digraph with the prefix in front, in order; the
    new id itself is not prefixed.
   */
  lemma AsClusterIds(g: DiGraph, newName: string, style: seq<NodeStyle.NodeStyleItem>, prefix: string)
    ensures Items.ClusterIds(AsCluster(g, newName, style, Some(prefix))) == [newName] + PrefixAll(prefix, DiGraphIds(g))
  {
    Items.RenameContentIds(g.items, g.edges, prefix);
  }

  /** Without a prefix, the cluster's identifiers are its new id followed by the digraph's. */
  lemma AsClusterIdsNoPrefix(g: DiGraph, newName: string, style: seq<NodeStyle.NodeStyleItem>)
    ensures Items.ClusterIds(AsCluster(g, newName, style, None)) == [newName] + DiGraphIds(g)
  {
  }

  /** The empty prefix gives the same cluster as no prefix at all. */
  lemma AsClusterEmptyPrefix(g: DiGraph, newName: string, style: seq<NodeStyle.NodeStyleItem>)
    ensures AsCluster(g, newName, style, Some("")) == AsCluster(g, newName, style, None)
  {
    Items.RenameItemsEmpty(g.items);
    Items.RenameEdgesEmpty(g.edges);
  }

  /** The digraph's own graph-level style never reaches the cluster. */
  lemma AsClusterIgnoresGraphStyle(g: DiGraph, other: seq<GraphStyle.GraphStyleItem>, newName: string,
                                   style: seq<NodeStyle.NodeStyleItem>, prefix: Option<string>)
    ensures AsCluster(g.(style := other), newName, style, prefix) == AsCluster(g, newName, style, prefix)
  {
  }

  /**
    Without a prefix, the promoted cluster holds exactly the digraph's item
    and edge lines: the digraph leads each line with a newline and ends with
    one more, the cluster ends each line with a newline.
   */
  lemma AsClusterSameLines(g: DiGraph, newName: string, style: seq<NodeStyle.NodeStyleItem>)
    ensures DiGraphLines(g) + "\n" == "\n" + Items.ClusterBody(AsCluster(g, newName, style, None))
  {
    LinesRotateTwo(Items.ItemTexts(g.items), Items.EdgeTexts(g.edges));
  }

}
