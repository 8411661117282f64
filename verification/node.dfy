/** A node with its style; its DOT statement; and its renaming with a prefix. */
module Nodes {

  import opened DotText
  import NodeStyle

  datatype Node = Node(id: string, style: seq<NodeStyle.NodeStyleItem>)

  /** The fragments of the node's style items, in order. */
  function NodeStyleTexts(style: seq<NodeStyle.NodeStyleItem>): seq<string>
  {
    seq(|style|, i requires 0 <= i < |style| => NodeStyle.NodeStyleItemText(style[i]))
  }

  /** The DOT statement of a node: `id;`, or `id [a1,a2,…];` when it has a style. */
  function NodeText(n: Node): string
  {
    var attrs := NodeStyleTexts(n.style);
    if |attrs| > 0 then n.id + " [" + Join(attrs, ",") + "];" else n.id + ";"
  }

  /** Every style fragment of a node has a key, the attribute its item sets. */
  lemma NodeStyleTextsKeys(style: seq<NodeStyle.NodeStyleItem>)
    ensures |NodeStyleTexts(style)| == |style|
    ensures forall i :: 0 <= i < |style| ==>
              KeyOf(NodeStyleTexts(style)[i]) == NodeStyle.NodeAttrName(style[i])
  {
    forall i | 0 <= i < |style|
      ensures KeyOf(NodeStyleTexts(style)[i]) == NodeStyle.NodeAttrName(style[i])
    {
      NodeStyle.NodeStyleItemKey(style[i]);
    }
  }

  /**
    A node's statement is the bare `id;` exactly when it has no style;
    otherwise it starts with the id and a space, and the bracket holds the
    style fragments joined with `,`.
   */
  lemma NodeTextForms(n: Node)
    ensures NodeText(n) == n.id + ";" <==> |n.style| == 0
    ensures |n.style| > 0 ==>
      NodeText(n) == n.id + " [" + Join(NodeStyleTexts(n.style), ",") + "];"
  {
    if |n.style| > 0 {
      assert |NodeText(n)| > |n.id + ";"|;
    }
  }

  /** The identifier gets the prefix; the style is kept as it is. */
  function RenameNode(n: Node, prefix: string): (r: Node)
    ensures r.style == n.style
    ensures |r.id| == |prefix| + |n.id|
    ensures r.id[..|prefix|] == prefix && r.id[|prefix|..] == n.id
  {
    Node(prefix + n.id, n.style)
  }

  /** Renaming with the empty prefix changes nothing. */
  lemma RenameNodeEmpty(n: Node)
    ensures RenameNode(n, "") == n
  {
    assert "" + n.id == n.id;
  }

  /** Renaming with `p` and then with `q` is renaming once with `q + p`. */
  lemma RenameNodeCompose(n: Node, p: string, q: string)
    ensures RenameNode(RenameNode(n, p), q) == RenameNode(n, q + p)
  {
    assert q + (p + n.id) == (q + p) + n.id;
  }

  /** A renamed node's statement is the original's with the prefix in front. */
  lemma RenameNodeText(n: Node, prefix: string)
    ensures NodeText(RenameNode(n, prefix)) == prefix + NodeText(n)
  {
    var attrs := NodeStyleTexts(n.style);
    if |attrs| > 0 {
      assert prefix + n.id + " [" + Join(attrs, ",") + "];" == prefix + (n.id + " [" + Join(attrs, ",") + "];");
    } else {
      assert prefix + n.id + ";" == prefix + (n.id + ";");
    }
  }

}
