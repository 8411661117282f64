/**
  An edge between two nodes, each end optionally clipped at the border of
  a cluster (DOT's `ltail` and `lhead`), with its style; its DOT statement;
  and its renaming with a prefix.
 */
module Edges {

  import opened Options
  import opened DotText
  import EdgeStyle

  /**
    `originCluster` and `targetCluster` name the clusters the edge's tail
    and head are clipped at, without the `cluster_` that DOT needs.
   */
  datatype Edge = Edge(
    originNodeId: string,
    originCluster: Option<string>,
    targetNodeId: string,
    targetCluster: Option<string>,
    style: seq<EdgeStyle.EdgeStyleItem>)

  /** The fragments of the edge's style items, in order. */
  function EdgeStyleTexts(style: seq<EdgeStyle.EdgeStyleItem>): seq<string>
  {
    seq(|style|, i requires 0 <= i < |style| => EdgeStyle.EdgeStyleItemText(style[i]))
  }

  /** `key=cluster_<id>` when a cluster is named, nothing otherwise. */
  function ClusterAttr(key: string, cluster: Option<string>): seq<string>
  {
    match cluster
    case None => []
    case Some(c) => [Attr(key, "cluster_" + c)]
  }

  /** The bracketed attributes of an edge: its style, then `ltail`, then `lhead`. */
  function EdgeAttrs(e: Edge): seq<string>
  {
    EdgeStyleTexts(e.style) + ClusterAttr("ltail", e.originCluster) + ClusterAttr("lhead", e.targetCluster)
  }

  /** The DOT statement of an edge: `o->t;`, or `o->t [a1,a2,…];` when it has attributes. */
  function EdgeText(e: Edge): string
  {
    var attrs := EdgeAttrs(e);
    if |attrs| == 0 then e.originNodeId + "->" + e.targetNodeId + ";"
    else e.originNodeId + "->" + e.targetNodeId + " [" + Join(attrs, ",") + "];"
  }

  /** No style item writes the `ltail` or `lhead` key, and no key holds `=`. */
  lemma EdgeAttrNameDistinct(it: EdgeStyle.EdgeStyleItem)
    ensures '=' !in EdgeStyle.EdgeAttrName(it)
    ensures EdgeStyle.EdgeAttrName(it) != "ltail" && EdgeStyle.EdgeAttrName(it) != "lhead"
  {
  }

  function Count(b: bool): nat
  {
    if b then 1 else 0
  }

  /**
    An edge's attributes are its style items' fragments in order, followed
    by at most one `ltail` and at most one `lhead`: an attribute with key
    `ltail` appears exactly when the tail is clipped at a cluster, only at
    the position right after the style, and its value is `cluster_` and
    that cluster's id; likewise `lhead` for the head, right after that.
   */
  lemma EdgeAttrsLayout(e: Edge)
    ensures var attrs := EdgeAttrs(e);
            var n := |e.style|;
            var tailAt := n;
            var headAt := n + Count(e.originCluster.Some?);
            && |attrs| == n + Count(e.originCluster.Some?) + Count(e.targetCluster.Some?)
            && (forall i :: 0 <= i < n ==> attrs[i] == EdgeStyle.EdgeStyleItemText(e.style[i]))
            && (forall i :: 0 <= i < |attrs| ==>
                  (KeyOf(attrs[i]) == "ltail" <==> e.originCluster.Some? && i == tailAt))
            && (forall i :: 0 <= i < |attrs| ==>
                  (KeyOf(attrs[i]) == "lhead" <==> e.targetCluster.Some? && i == headAt))
            && (e.originCluster.Some? ==> ValueOf(attrs[tailAt]) == "cluster_" + e.originCluster.value)
            && (e.targetCluster.Some? ==> ValueOf(attrs[headAt]) == "cluster_" + e.targetCluster.value)
  {
    var attrs := EdgeAttrs(e);
    var n := |e.style|;
    var tail := ClusterAttr("ltail", e.originCluster);
    var head := ClusterAttr("lhead", e.targetCluster);
    assert attrs == EdgeStyleTexts(e.style) + tail + head;
    forall i | 0 <= i < n
      ensures KeyOf(attrs[i]) != "ltail" && KeyOf(attrs[i]) != "lhead"
    {
      EdgeStyle.EdgeStyleItemReadBack(e.style[i]);
      EdgeAttrNameDistinct(e.style[i]);
    }
    if e.originCluster.Some? {
      KeyValueRoundTrip("ltail", "cluster_" + e.originCluster.value);
      assert attrs[n] == tail[0];
    }
    if e.targetCluster.Some? {
      KeyValueRoundTrip("lhead", "cluster_" + e.targetCluster.value);
      assert attrs[n + |tail|] == head[0];
    }
  }

  /**
    An edge's statement is the bare `o->t;` exactly when the edge has no
    style and neither end is clipped at a cluster; otherwise its attributes
    are joined with `,` between ` [` and `];`.
   */
  lemma EdgeTextForms(e: Edge)
    ensures EdgeText(e) == e.originNodeId + "->" + e.targetNodeId + ";"
            <==> |e.style| == 0 && e.originCluster.None? && e.targetCluster.None?
    ensures EdgeAttrs(e) != [] ==>
      EdgeText(e) == e.originNodeId + "->" + e.targetNodeId + " [" + Join(EdgeAttrs(e), ",") + "];"
  {
    EdgeAttrsLayout(e);
    var bare := e.originNodeId + "->" + e.targetNodeId + ";";
    if EdgeAttrs(e) != [] {
      var full := EdgeText(e);
      assert |full| > |bare| by {
        assert |full| == |e.originNodeId + "->" + e.targetNodeId| + 2 + |Join(EdgeAttrs(e), ",")| + 2;
      }
    }
  }

  /** The identifiers an edge refers to: origin node, its cluster if any, target node, its cluster if any. */
  function EdgeIds(e: Edge): seq<string>
  {
    [e.originNodeId] + OptionIds(e.originCluster) + [e.targetNodeId] + OptionIds(e.targetCluster)
  }

  function OptionIds(o: Option<string>): seq<string>
  {
    match o
    case None => []
    case Some(c) => [c]
  }

  function PrefixOption(prefix: string, o: Option<string>): Option<string>
  {
    match o
    case None => None
    case Some(c) => Some(prefix + c)
  }

  lemma PrefixOptionEmpty(o: Option<string>)
    ensures PrefixOption("", o) == o
  {
    if o.Some? {
      assert "" + o.value == o.value;
    }
  }

  lemma PrefixOptionCompose(o: Option<string>, p: string, q: string)
    ensures PrefixOption(q, PrefixOption(p, o)) == PrefixOption(q + p, o)
  {
    if o.Some? {
      assert q + (p + o.value) == (q + p) + o.value;
    }
  }

  /** Every identifier of the edge gets the prefix; the style is kept as it is. */
  function RenameEdge(e: Edge, prefix: string): (r: Edge)
    ensures r.style == e.style
    ensures r.originCluster.Some? <==> e.originCluster.Some?
    ensures r.targetCluster.Some? <==> e.targetCluster.Some?
  {
    Edge(prefix + e.originNodeId, PrefixOption(prefix, e.originCluster),
         prefix + e.targetNodeId, PrefixOption(prefix, e.targetCluster), e.style)
  }

  /** Renaming puts the prefix in front of every identifier the edge refers to, and of nothing else. */
  lemma RenameEdgeIds(e: Edge, prefix: string)
    ensures EdgeIds(RenameEdge(e, prefix)) == PrefixAll(prefix, EdgeIds(e))
  {
  }

  /** Renaming with the empty prefix changes nothing. */
  lemma RenameEdgeEmpty(e: Edge)
    ensures RenameEdge(e, "") == e
  {
    assert "" + e.originNodeId == e.originNodeId;
    assert "" + e.targetNodeId == e.targetNodeId;
    PrefixOptionEmpty(e.originCluster);
    PrefixOptionEmpty(e.targetCluster);
  }

  /** Renaming with `p` and then with `q` is renaming once with `q + p`. */
  lemma RenameEdgeCompose(e: Edge, p: string, q: string)
    ensures RenameEdge(RenameEdge(e, p), q) == RenameEdge(e, q + p)
  {
    assert q + (p + e.originNodeId) == (q + p) + e.originNodeId;
    assert q + (p + e.targetNodeId) == (q + p) + e.targetNodeId;
    PrefixOptionCompose(e.originCluster, p, q);
    PrefixOptionCompose(e.targetCluster, p, q);
  }

  /**
    A renamed edge's statement: the ends carry the prefix, the style
    fragments are unchanged, and the clusters named by `ltail` and `lhead`
    carry the prefix after `cluster_`.
   */
  lemma RenameEdgeText(e: Edge, prefix: string)
    ensures var r := RenameEdge(e, prefix);
            && EdgeStyleTexts(r.style) == EdgeStyleTexts(e.style)
            && |EdgeAttrs(r)| == |EdgeAttrs(e)|
            && (e.originCluster.Some? ==>
                  ValueOf(EdgeAttrs(r)[|e.style|]) == "cluster_" + prefix + e.originCluster.value)
            && (e.targetCluster.Some? ==>
                  ValueOf(EdgeAttrs(r)[|e.style| + Count(e.originCluster.Some?)])
                    == "cluster_" + prefix + e.targetCluster.value)
  {
    var r := RenameEdge(e, prefix);
    EdgeAttrsLayout(e);
    EdgeAttrsLayout(r);
    if e.originCluster.Some? {
      assert "cluster_" + (prefix + e.originCluster.value) == "cluster_" + prefix + e.originCluster.value;
    }
    if e.targetCluster.Some? {
      assert "cluster_" + (prefix + e.targetCluster.value) == "cluster_" + prefix + e.targetCluster.value;
    }
  }

}
