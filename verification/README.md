# graphviz_dot_builder in Dafny

This is a model of the DOT text generator of the Rust crate `graphviz_dot_builder`, together with its identifier-renaming transformation. The model covers:

- the style items of edges, nodes and graphs, each written as a `key=value` fragment;
- nodes, edges and the mutually recursive item/cluster tree, with their DOT statements;
- `rename_with_prefix`, which puts a prefix in front of every identifier at every depth;
- the digraph of the current revision (`style`/`items`/`edges`) with its text, builders and `as_cluster`;
- the digraph of the earlier revision (`clusters`/`nodes`/`edges`, no graph style) in a separate module, related to the current one by lemmas.

Every value is an immutable datatype, and every operation is a pure function. A builder call such as `add_item` is a function that returns the updated record.

## Layout

| file | module | models |
|---|---|---|
| options.dfy | `Options` | `Option` |
| text.dfy | `DotText` | string toolkit used by every serialiser; reference readers for the texts (see below) |
| colors.dfy | `Colors` | a colour, carried as its DOT text |
| edge_style.dfy | `EdgeStyle` | arrowheads, line styles, edge style items |
| node_style.dfy | `NodeStyle` | node style kinds and lists, shapes, node style items |
| graph_style.dfy | `GraphStyle` | rank direction, spline modes, graph style items |
| edge.dfy | `Edges` | edges: statement and renaming |
| node.dfy | `Nodes` | nodes: statement and renaming |
| items.dfy | `Items` | items and clusters: text, renaming, builders |
| digraph.dfy | `DiGraphs` | the current digraph |
| legacy_digraph.dfy | `LegacyDiGraphs` | the earlier digraph |

The string toolkit in text.dfy has two kinds of parts:

- Writers: comma joining, decimal formatting of naturals, ASCII lower-casing and line assembly.
- Readers that state what a text means: splitting at a separator, the key and value on either side of the first `=`, and decimal parsing.

The readers are independent of the writers. Most properties are therefore stated as round trips: a fragment's key reads back as the attribute its item sets, and its value reads back as the item's payload. The arrowhead text is parsed back by a front-to-back reader of the `[o][l|r]name` grammar, and the model proves this reader exact in both directions.

Renaming is stated against a traversal. `ClusterIds` lists every identifier a cluster holds at any depth: cluster ids, node ids, edge endpoints and edge cluster qualifiers. Renaming with `p` gives exactly that list with `p` in front of each entry. Renaming with `""` is the identity, and renaming with `p` then with `q` is renaming once with `q + p`. The source builds each new id as the prefix followed by the old id, so this composition law holds for the code as written.

The two revisions of the digraph order things differently:

- The earlier revision writes its clusters before its nodes.
- Its `as_cluster` puts the nodes before the clusters.

Two lemmas make this precise. `LegacyTextAsCurrent` equates the earlier text with the current text of a style-less graph whose items are the clusters and then the nodes. `LegacyAsClusterAsCurrent` equates the earlier `as_cluster` with the current one on a graph whose items are the nodes and then the clusters.

## Model

| member | source | states |
|---|---|---|
| EdgeStyle.FillText | src/edge/style.rs:28-35 | an open shape writes `o` and a filled one writes nothing; the code is empty exactly for `Filled` |
| EdgeStyle.SideText | src/edge/style.rs:44-52 | `Left` writes `l` and `Right` writes `r`, keeping one half of the shape; the code is empty exactly for `Both` |
| EdgeStyle.ArrowHeadTextGrammar | src/edge/style.rs:82-130 | `none` for no arrow; fill code + `dot` for a dot; fill code + side code + name for normal, box, icurve, diamond, inv; side code + name for crow, curve, tee, vee; every text ends with its shape name after at most two characters |
| EdgeStyle.ArrowHeadExamples | src/edge/style.rs:85-127 | an open left triangle is `olnormal`, a left crow's foot is `lcrow`, a filled dot is `dot` |
| EdgeStyle.ArrowHeadRoundTrip | src/edge/style.rs:82-130 | an independent reader of the `[o][l or r]name` grammar gives back every arrowhead from its text |
| EdgeStyle.ArrowHeadParseCanonical | src/edge/style.rs:82-130 | every string that reader accepts is exactly the text of the arrowhead it returns |
| EdgeStyle.ArrowHeadTextInjective | src/edge/style.rs:82-130 | two arrowheads with the same text are the same arrowhead |
| EdgeStyle.LineStyleLiterals | src/edge/style.rs:141-146 | the line styles are written `solid`, `dashed`, `dotted`, `bold` |
| EdgeStyle.EdgeStyleItemReadBack | src/edge/style.rs:168-208 | an edge style fragment's key is the attribute its item sets; its value is the line style word, the label quoted verbatim, the colour text, or an arrowhead or number that parses back to the payload |
| NodeStyle.StyleKindLiterals | src/item/node/style.rs:38-43 | every style kind's word spelled out: `solid`, `dashed`, `dotted`, `bold`, `invis`, `rounded`, `diagonals`, `filled`, `striped`, `wedged` |
| NodeStyle.StyleKindTextInjective | src/item/node/style.rs:38-43 | every style kind's word reads back as that kind, and two kinds have the same word exactly when they are equal |
| NodeStyle.StyleKindWord | src/item/node/style.rs:38-43 | no style kind's word is empty or holds a comma |
| NodeStyle.StyleListFields | src/item/node/style.rs:47-53 | a style list is quoted; it is two bare quotes exactly when empty; between the quotes, splitting at `,` gives back the kinds' words in order |
| NodeStyle.ShapeLiterals | src/item/node/style.rs:80-85 | every one of the twenty shapes' words spelled out, lower case with no separator: `ellipse`, `doublecircle`, `invtrapezium`, `plaintext`, … |
| NodeStyle.ShapeTextInjective | src/item/node/style.rs:80-85 | every shape's word reads back as that shape, and two shapes have the same word exactly when they are equal |
| NodeStyle.NodeStyleItemKey | src/item/node/style.rs:107-150 | a node style fragment's key, read up to the first `=`, is the attribute its item sets, and the rest is its value |
| NodeStyle.NodeStyleItemValue | src/item/node/style.rs:110-147 | pen width, height, width, peripheries and font size parse back as decimals; label and font name are quoted verbatim; style list, shape and colours are their texts |
| NodeStyle.NodeStyleItemFragments | src/item/node/style.rs:131-139 | `Image` is `imagescale=true` then `;` then `image="<path>"`; `FillColor` is `style=filled` then `;` then `fillcolor=<colour>` |
| GraphStyle.RankDirLiterals | src/graph/style.rs:31-36 | TB, BT, LR, RL are written `tb`, `bt`, `lr`, `rl` |
| GraphStyle.RankDirTextInjective | src/graph/style.rs:31-36 | two rank directions have the same text exactly when they are equal |
| GraphStyle.SplinesLiterals | src/graph/style.rs:74-77 | every spline mode's word spelled out: `none`, `line`, `curved`, `polyline`, `spline`, `ortho` |
| GraphStyle.SplinesTextInjective | src/graph/style.rs:74-77 | two spline modes have the same text exactly when they are equal |
| GraphStyle.GraphStyleItemReadBack | src/graph/style.rs:62-79 | a graph style fragment's key is its attribute; the node separation's two numbers parse back from either side of the `.`; `concentrate` is written `true` when set and `false` when not; rank direction and splines are their words |
| GraphStyle.GraphStyleItemTextInjective | src/graph/style.rs:62-79 | two graph style items have the same fragment exactly when they are equal |
| GraphStyle.GraphStyleItemOneEquals | src/graph/style.rs:62-79 | every graph style fragment holds exactly one `=` |
| Edges.EdgeAttrsLayout | src/edge/edge.rs:64-77 | the attributes are the style fragments in order, then `ltail`, then `lhead`; the count is the style length plus one per clipped end; `ltail=cluster_<c>` appears exactly when the origin is clipped at `c`, and likewise `lhead` for the target |
| Edges.EdgeTextForms | src/edge/edge.rs:80-84 | the statement is the bare `o->t;` exactly when there is no style and no clipping; otherwise it is `o->t [` + the attributes joined by `,` + `];` |
| Edges.RenameEdge | src/edge/edge.rs:45-59 | renaming keeps the style, and keeps each cluster qualifier present exactly when it was |
| Edges.RenameEdgeIds | src/edge/edge.rs:45-59 | renaming puts the prefix in front of the two endpoints and of each qualifier present, and changes no other identifier |
| Edges.RenameEdgeEmpty | src/edge/edge.rs:45-59 | renaming with the empty prefix changes nothing |
| Edges.RenameEdgeCompose | src/edge/edge.rs:45-59 | renaming with `p` then `q` is renaming with `q + p` |
| Edges.RenameEdgeText | src/edge/edge.rs:45-77 | a renamed edge keeps its style fragments and attribute count; its `ltail`/`lhead` values become `cluster_` + prefix + cluster |
| Nodes.NodeStyleTextsKeys | src/item/node/node.rs:37-38 | one fragment per style item, in order, each keyed by that item's attribute |
| Nodes.NodeTextForms | src/item/node/node.rs:35-44 | the statement is `id;` exactly when the style is empty; otherwise it is `id [` + the fragments joined by `,` + `];` |
| Nodes.RenameNode | src/item/node/node.rs:47-51 | the renamed id starts with the prefix, followed by the old id, and is exactly as long as both; the style is kept |
| Nodes.RenameNodeEmpty | src/item/node/node.rs:47-51 | renaming with the empty prefix changes nothing |
| Nodes.RenameNodeCompose | src/item/node/node.rs:47-51 | renaming with `p` then `q` is renaming with `q + p` |
| Nodes.RenameNodeText | src/item/node/node.rs:35-51 | a renamed node's statement is the original statement with the prefix in front |
| Items.ClusterTextFrame | src/item/cluster.rs:40-62 | a cluster's text starts with `subgraph cluster_<id> {` and a newline, then its style lines, and ends with `}` |
| Items.RenameItem | src/item/item.rs:40-50 | renaming keeps the variant; a node item renames its node, a cluster item its cluster |
| Items.RenameItems | src/item/cluster.rs:68-69 | the items are renamed one by one, same count, same order |
| Items.RenameEdges | src/item/cluster.rs:70-71 | the edges are renamed one by one, same count, same order |
| Items.RenameCluster | src/item/cluster.rs:66-77 | the renamed id is prefix + id; the style is kept; item `k` and edge `k` are item `k` and edge `k` renamed |
| Items.RenameItemIds | src/item/item.rs:40-50 | renaming an item prefixes every identifier it holds, at any depth, and nothing else |
| Items.RenameClusterIds | src/item/cluster.rs:66-77 | renaming a cluster prefixes its id and every identifier nested in it at any depth, in order |
| Items.RenameContentIds | src/item/cluster.rs:68-71 | renaming a cluster's items and edges prefixes every identifier they hold, in order |
| Items.RenameItemEmpty | src/item/item.rs:40-50 | renaming an item with the empty prefix changes nothing |
| Items.RenameClusterEmpty | src/item/cluster.rs:66-77 | renaming a cluster with the empty prefix changes nothing, at any depth |
| Items.RenameItemsEmpty | src/item/cluster.rs:68-69 | renaming items with the empty prefix changes nothing |
| Items.RenameEdgesEmpty | src/item/cluster.rs:70-71 | renaming edges with the empty prefix changes nothing |
| Items.RenameItemCompose | src/item/item.rs:40-50 | renaming an item with `p` then `q` is renaming with `q + p` |
| Items.RenameClusterCompose | src/item/cluster.rs:66-77 | renaming a cluster with `p` then `q` is renaming with `q + p`, at any depth |
| Items.RenameItemsCompose | src/item/cluster.rs:68-69 | renaming items with `p` then `q` is renaming with `q + p` |
| Items.RenameEdgesCompose | src/item/cluster.rs:70-71 | renaming edges with `p` then `q` is renaming with `q + p` |
| Items.RenameNodeItemText | src/item/item.rs:27-50 | a renamed node item prints as the node's statement with the prefix in front |
| Items.RenameClusterHeader | src/item/cluster.rs:40-77 | a renamed cluster's text opens with the header of the prefixed id and the unchanged style lines |
| Items.AddItem | src/item/cluster.rs:83-85 | `add_item` appends one item at the end; id, style and edges are unchanged |
| Items.AddEdge | src/item/cluster.rs:87-89 | `add_edge` appends one edge at the end; id, style and items are unchanged |
| Items.AddItemText | src/item/cluster.rs:49-58 | adding an item inserts exactly one line, tab + item text + newline, after the last item line and before the first edge line |
| Items.AddEdgeText | src/item/cluster.rs:54-59 | adding an edge inserts exactly one line, tab + statement + newline, right before the closing `}` |
| Items.RenamedClusterExample | src/item/cluster.rs:40-77 | cluster `x` holding node `n`, renamed with `p_`, prints as `subgraph cluster_p_x {`, newline, tab, `p_n;`, newline, `}` |
| DiGraphs.NewDiGraph | src/graph/graph.rs:33-35 | `new` keeps the style and starts with no item and no edge |
| DiGraphs.DiGraphTextFrame | src/graph/build.rs:24-42 | the text starts with `digraph G {`, newline, `compound=true;` and the style lines, and ends with a newline and `}` |
| DiGraphs.EmptyDiGraphText | src/graph/build.rs:24-42 | an empty graph with no style is exactly the header, a newline and `}` |
| DiGraphs.AddItem | src/graph/build.rs:49-51 | `add_item` appends one item at the end; style and edges are unchanged |
| DiGraphs.AddEdge | src/graph/build.rs:53-55 | `add_edge` appends one edge at the end; style and items are unchanged |
| DiGraphs.AddItemAddEdgeCommute | src/graph/build.rs:49-55 | adding an item and adding an edge commute |
| DiGraphs.AddItemText | src/graph/build.rs:31-38 | adding an item inserts exactly one newline + tab + item text, after the last item and before the first edge |
| DiGraphs.AddEdgeText | src/graph/build.rs:35-39 | adding an edge inserts exactly one newline + tab + statement, right before the closing newline and `}` |
| DiGraphs.TwoNodesOneEdgeText | src/graph/build.rs:24-42 | nodes `A` and `B` and an edge `A->B` give `digraph G {\ncompound=true;\n\tA;\n\tB;\n\tA->B;\n}` |
| DiGraphs.AsCluster | src/graph/graph.rs:37-56 | the cluster has the new name, never prefixed, and the given style; without a prefix it holds the items and edges unchanged; with one, item `k` and edge `k` renamed |
| DiGraphs.AsClusterIds | src/graph/graph.rs:47-54 | with a prefix, the cluster's identifiers are the new name and then every identifier of the digraph with the prefix in front |
| DiGraphs.AsClusterIdsNoPrefix | src/graph/graph.rs:42-46 | without a prefix, the cluster's identifiers are the new name and then the digraph's |
| DiGraphs.AsClusterEmptyPrefix | src/graph/graph.rs:37-56 | the empty prefix gives the same cluster as no prefix |
| DiGraphs.AsClusterIgnoresGraphStyle | src/graph/graph.rs:37-56 | the digraph's graph-level style never reaches the cluster |
| DiGraphs.AsClusterSameLines | src/graph/graph.rs:42-46 | without a prefix, the cluster's item and edge lines are the digraph's item and edge lines |
| LegacyDiGraphs.NewLegacyDiGraph | src/graph.rs:33-35 | `new` has no cluster, node or edge |
| LegacyDiGraphs.AddNode | src/graph.rs:95-97 | `add_node` wraps the node as a node item and appends it; clusters and edges are unchanged |
| LegacyDiGraphs.AddCluster | src/graph.rs:99-101 | `add_cluster` appends the cluster; nodes and edges are unchanged |
| LegacyDiGraphs.AddEdge | src/graph.rs:103-105 | `add_edge` appends the edge; clusters and nodes are unchanged |
| LegacyDiGraphs.GetSpecificCluster | src/graph.rs:37-39 | there is a cluster exactly when the position is below the number of clusters, and it is the cluster at that position |
| LegacyDiGraphs.GetAfterAddCluster | src/graph.rs:37-39 | a cluster just added is found at the next position, and earlier clusters stay where they were |
| LegacyDiGraphs.WithCluster | src/graph.rs:37-39 | a change through the returned reference leaves nodes, edges and the number of clusters unchanged |
| LegacyDiGraphs.GetAfterWithCluster | src/graph.rs:37-39 | after such a change the position reads back the new cluster and every other position is unchanged |
| LegacyDiGraphs.LegacyTextAsCurrent | src/graph.rs:69-89 | the text is the header, then the clusters, the nodes and the edges each after a newline and a tab, then a newline and `}`, with no style line: the current text of a style-less graph whose items are the clusters then the nodes |
| LegacyDiGraphs.LegacyAsCluster | src/graph.rs:41-66 | the cluster holds the nodes first, then the clusters as cluster items, then the edges; each unchanged without a prefix and renamed with one; the new name is not prefixed |
| LegacyDiGraphs.LegacyAsClusterAsCurrent | src/graph.rs:41-66 | the earlier `as_cluster` is the current one on a graph whose items are the nodes then the clusters |
| LegacyDiGraphs.LegacyAsClusterIds | src/graph.rs:54-63 | with a prefix, the cluster's identifiers are the new name and then every identifier of the graph, at any depth, with the prefix in front |
| LegacyDiGraphs.LegacyAsClusterEmptyPrefix | src/graph.rs:41-66 | the empty prefix gives the same cluster as no prefix |

## Left out

- src/graph/print.rs and src/print_dot.rs are not part of this model. They write files and run the external `dot` program, which is I/O.
- src/traits.rs declares trait signatures only. Each operation is a plain function here.
- `GraphvizColor` is not part of this model. A colour is represented by the DOT text it writes.
- The `new` constructors of edges, nodes and clusters are Dafny datatype constructors. They store their fields verbatim by construction, so they need no contract of their own.
- `u32` payloads are `nat`. Only their decimal text matters, and that text is the same for every value a `u32` can hold.
- The lower-cased variant names of `strum` and `to_lowercase` are ASCII lower-casing of the variant names. All of those names are ASCII.
- Ownership (`Box`, `clone`, `&mut self`) is not modelled. `as_cluster` is a pure function, so it cannot change the digraph.
- LegacyDiGraphs.GetSpecificCluster returns the cluster as a value, not a mutable reference. Writing through the reference is modelled separately by `WithCluster`.
- Nothing is claimed about the output being well-formed DOT for arbitrary labels, paths or ids. The code escapes no quote, and it checks neither that ids are unique nor that edge endpoints exist.
- `NodeSep(unit, decimal)` writes both numbers in plain decimal, so a decimal part with a leading zero, such as `0.05`, cannot be written. The model keeps this as written.
