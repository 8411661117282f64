/**
  The earlier revision of the digraph: clusters, nodes and edges in three
  separate sequences and no graph-level style. Its text lists the clusters
  first, while its promotion into a cluster lists the nodes first.
 */
module LegacyDiGraphs {

  import opened Options
  import opened DotText
  import NodeStyle
  import Nodes
  import Edges
  import Items
  import DiGraphs

  /** `nodes` holds items: `add_node` only ever adds node items to it. */
  datatype LegacyDiGraph = LegacyDiGraph(
    clusters: seq<Items.Cluster>,
    nodes: seq<Items.Item>,
    edges: seq<Edges.Edge>)

  /** `new`: nothing in any of the three sequences. */
  function NewLegacyDiGraph(): (g: LegacyDiGraph)
    ensures g.clusters == [] && g.nodes == [] && g.edges == []
  {
    LegacyDiGraph([], [], [])
  }

  /** `add_node`: the node, as a node item, at the end of the nodes; nothing else changes. */
  function AddNode(g: LegacyDiGraph, n: Nodes.Node): (r: LegacyDiGraph)
    ensures r.clusters == g.clusters && r.edges == g.edges
    ensures |r.nodes| == |g.nodes| + 1 && r.nodes[..|g.nodes|] == g.nodes && r.nodes[|g.nodes|] == Items.NodeItem(n)
  {
    g.(nodes := g.nodes + [Items.NodeItem(n)])
  }

  /** `add_cluster`: the cluster at the end of the clusters; nothing else changes. */
  function AddCluster(g: LegacyDiGraph, c: Items.Cluster): (r: LegacyDiGraph)
    ensures r.nodes == g.nodes && r.edges == g.edges
    ensures |r.clusters| == |g.clusters| + 1 && r.clusters[..|g.clusters|] == g.clusters && r.clusters[|g.clusters|] == c
  {
    g.(clusters := g.clusters + [c])
  }

  /** `add_edge`: the edge at the end of the edges; nothing else changes. */
  function AddEdge(g: LegacyDiGraph, e: Edges.Edge): (r: LegacyDiGraph)
    ensures r.clusters == g.clusters && r.nodes == g.nodes
    ensures |r.edges| == |g.edges| + 1 && r.edges[..|g.edges|] == g.edges && r.edges[|g.edges|] == e
  {
    g.(edges := g.edges + [e])
  }

  /** `get_specific_cluster`: the cluster at a position, if there is one. */
  function GetSpecificCluster(g: LegacyDiGraph, i: nat): (r: Option<Items.Cluster>)
    ensures r.Some? <==> i < |g.clusters|
    ensures r.Some? ==> r.value == g.clusters[i]
  {
    if i < |g.clusters| then Some(g.clusters[i]) else None
  }

  /**
    A change made through the reference `get_specific_cluster` hands out:
    the cluster at that position is replaced, and a position with no
    cluster changes nothing.
   */
  function WithCluster(g: LegacyDiGraph, i: nat, c: Items.Cluster): (r: LegacyDiGraph)
    ensures r.nodes == g.nodes && r.edges == g.edges && |r.clusters| == |g.clusters|
  {
    if i < |g.clusters| then g.(clusters := g.clusters[i := c]) else g
  }

  /**
    A cluster just added is found at the next position, and every cluster
    added before it is still found where it was.
   */
  lemma GetAfterAddCluster(g: LegacyDiGraph, c: Items.Cluster, i: nat)
    ensures GetSpecificCluster(AddCluster(g, c), |g.clusters|) == Some(c)
    ensures i < |g.clusters| ==> GetSpecificCluster(AddCluster(g, c), i) == GetSpecificCluster(g, i)
    ensures i > |g.clusters| ==> GetSpecificCluster(AddCluster(g, c), i) == None
  {
  }

  /**
    After a change through the reference, the position reads back the new
    cluster and every other position reads back what it held before.
   */
  lemma GetAfterWithCluster(g: LegacyDiGraph, i: nat, c: Items.Cluster, j: nat)
    ensures i < |g.clusters| ==> GetSpecificCluster(WithCluster(g, i, c), i) == Some(c)
    ensures j != i ==> GetSpecificCluster(WithCluster(g, i, c), j) == GetSpecificCluster(g, j)
  {
  }

  /** Each cluster as a cluster item. */
  function ClusterItems(clusters: seq<Items.Cluster>): (r: seq<Items.Item>)
    ensures |r| == |clusters|
    ensures forall k :: 0 <= k < |clusters| ==> r[k] == Items.ClusterItem(clusters[k])
  {
    seq(|clusters|, k requires 0 <= k < |clusters| => Items.ClusterItem(clusters[k]))
  }

  function ClusterTexts(clusters: seq<Items.Cluster>): seq<string>
  {
    seq(|clusters|, k requires 0 <= k < |clusters| => Items.ClusterText(clusters[k]))
  }

  /**
    The DOT text of the earlier revision: the same header as now, then one
    line per cluster, then per node, then per edge, each led by a newline
    and a tab, and no graph-level style at all.
   */
  function LegacyDiGraphText(g: LegacyDiGraph): string
  {
    DiGraphs.GraphHeader
      + Lines("\n\t", ClusterTexts(g.clusters), "")
      + Lines("\n\t", Items.ItemTexts(g.nodes), "")
      + Lines("\n\t", Items.EdgeTexts(g.edges), "")
      + "\n}"
  }

  /**
    The earlier revision's text is the current revision's text for a graph
    with no style whose items are the clusters, as cluster items, followed
    by the nodes.
   */
  lemma LegacyTextAsCurrent(g: LegacyDiGraph)
    ensures LegacyDiGraphText(g)
         == DiGraphs.DiGraphText(DiGraphs.DiGraph([], ClusterItems(g.clusters) + g.nodes, g.edges))
  {
    var d := DiGraphs.DiGraph([], ClusterItems(g.clusters) + g.nodes, g.edges);
    var a := Lines("\n\t", ClusterTexts(g.clusters), "");
    var b := Lines("\n\t", Items.ItemTexts(g.nodes), "");
    var e := Lines("\n\t", Items.EdgeTexts(g.edges), "");
    ClusterItemTexts(g.clusters, g.nodes);
    LinesAppend("\n\t", ClusterTexts(g.clusters), Items.ItemTexts(g.nodes), "");
    assert DiGraphs.DiGraphLines(d) == a + b + e;
    var h := DiGraphs.GraphHeader;
    assert DiGraphs.GraphStyleLines([]) == "";
    assert h + "" == h;
    Assoc(h, a + b, e);
    Assoc(h, a, b);
  }

  /** The clusters' texts, as cluster items, followed by the nodes' texts. */
  lemma ClusterItemTexts(clusters: seq<Items.Cluster>, nodes: seq<Items.Item>)
    ensures Items.ItemTexts(ClusterItems(clusters) + nodes) == ClusterTexts(clusters) + Items.ItemTexts(nodes)
  {
    var l := ClusterItems(clusters) + nodes;
    assert forall k :: 0 <= k < |clusters| ==> Items.ItemText(l[k]) == Items.ClusterText(clusters[k]);
    assert forall k :: |clusters| <= k < |l| ==> l[k] == nodes[k - |clusters|];
  }

  /**
    `as_cluster` of the earlier revision: the nodes first, then the
    clusters as cluster items, then the edges; as they are without a prefix
    and each renamed with it otherwise. The new id is never prefixed.
   */
  function LegacyAsCluster(g: LegacyDiGraph, newName: string, style: seq<NodeStyle.NodeStyleItem>,
                           prefix: Option<string>): (c: Items.Cluster)
    ensures c.id == newName && c.style == style
    ensures |c.items| == |g.nodes| + |g.clusters| && |c.edges| == |g.edges|
    ensures prefix.None? ==>
      && c.items[..|g.nodes|] == g.nodes
      && (forall k :: 0 <= k < |g.clusters| ==> c.items[|g.nodes| + k] == Items.ClusterItem(g.clusters[k]))
      && c.edges == g.edges
    ensures prefix.Some? ==>
      && (forall k :: 0 <= k < |g.nodes| ==> c.items[k] == Items.RenameItem(g.nodes[k], prefix.value))
      && (forall k :: 0 <= k < |g.clusters| ==>
            c.items[|g.nodes| + k] == Items.ClusterItem(Items.RenameCluster(g.clusters[k], prefix.value)))
      && (forall k :: 0 <= k < |g.edges| ==> c.edges[k] == Edges.RenameEdge(g.edges[k], prefix.value))
  {
    match prefix
    case None => Items.Cluster(newName, style, g.nodes + ClusterItems(g.clusters), g.edges)
    case Some(p) =>
      Items.Cluster(newName, style,
              Items.RenameItems(g.nodes, p) + ClusterItems(RenameClusters(g.clusters, p)),
              Items.RenameEdges(g.edges, p))
  }

  function RenameClusters(clusters: seq<Items.Cluster>, prefix: string): (r: seq<Items.Cluster>)
    ensures |r| == |clusters|
    ensures forall k :: 0 <= k < |clusters| ==> r[k] == Items.RenameCluster(clusters[k], prefix)
  {
    seq(|clusters|, k requires 0 <= k < |clusters| => Items.RenameCluster(clusters[k], prefix))
  }

  /**
    Promoting the earlier revision's graph is promoting the current
    revision's graph whose items are the nodes followed by the clusters:
    the same cluster, with or without a prefix.
   */
  lemma LegacyAsClusterAsCurrent(g: LegacyDiGraph, newName: string, style: seq<NodeStyle.NodeStyleItem>,
                                 prefix: Option<string>)
    ensures LegacyAsCluster(g, newName, style, prefix)
         == DiGraphs.AsCluster(DiGraphs.DiGraph([], g.nodes + ClusterItems(g.clusters), g.edges), newName, style, prefix)
  {
    match prefix
    case None =>
    case Some(p) =>
      RenameNodesThenClusters(g.nodes, g.clusters, p);
  }

  /** Renaming the nodes followed by the clusters renames each part in place. */
  lemma RenameNodesThenClusters(nodes: seq<Items.Item>, clusters: seq<Items.Cluster>, prefix: string)
    ensures Items.RenameItems(nodes + ClusterItems(clusters), prefix)
         == Items.RenameItems(nodes, prefix) + ClusterItems(RenameClusters(clusters, prefix))
  {
    var l := nodes + ClusterItems(clusters);
    var r := Items.RenameItems(nodes, prefix) + ClusterItems(RenameClusters(clusters, prefix));
    assert |Items.RenameItems(l, prefix)| == |r|;
    forall k | 0 <= k < |l|
      ensures Items.RenameItems(l, prefix)[k] == r[k]
    {
      if k >= |nodes| {
        assert l[k] == Items.ClusterItem(clusters[k - |nodes|]);
      }
    }
  }

  /**
    With a prefix, the promoted cluster's identifiers are its new id and
    then every identifier of the graph, nodes first, then clusters at any
    depth, then edges, each with the prefix in front.
   */
  lemma LegacyAsClusterIds(g: LegacyDiGraph, newName: string, style: seq<NodeStyle.NodeStyleItem>, prefix: string)
    ensures Items.ClusterIds(LegacyAsCluster(g, newName, style, Some(prefix)))
         == [newName] + PrefixAll(prefix, Items.ContentIds(g.nodes + ClusterItems(g.clusters), g.edges))
  {
    LegacyAsClusterAsCurrent(g, newName, style, Some(prefix));
    DiGraphs.AsClusterIds(DiGraphs.DiGraph([], g.nodes + ClusterItems(g.clusters), g.edges), newName, style, prefix);
  }

  /** The empty prefix gives the same cluster as no prefix at all. */
  lemma LegacyAsClusterEmptyPrefix(g: LegacyDiGraph, newName: string, style: seq<NodeStyle.NodeStyleItem>)
    ensures LegacyAsCluster(g, newName, style, Some("")) == LegacyAsCluster(g, newName, style, None)
  {
    var d := DiGraphs.DiGraph([], g.nodes + ClusterItems(g.clusters), g.edges);
    LegacyAsClusterAsCurrent(g, newName, style, Some(""));
    LegacyAsClusterAsCurrent(g, newName, style, None);
    DiGraphs.AsClusterEmptyPrefix(d, newName, style);
  }

}
