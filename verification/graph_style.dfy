/**
  Graph-level style attributes of a digraph: rank direction, node
  separation, edge concentration and the spline mode, each serialising to
  one `key=value` DOT fragment.
 */
module GraphStyle {

  import Options
  import opened DotText

  datatype RankDir = TB | BT | LR | RL

  /** The variant's name, as `IntoStaticStr` gives it. */
  function RankDirName(rd: RankDir): string
  {
    match rd
    case TB => "TB"
    case BT => "BT"
    case LR => "LR"
    case RL => "RL"
  }

  /** A rank direction is its variant name lower-cased. */
  function RankDirText(rd: RankDir): string
  {
    ToLower(RankDirName(rd))
  }

  /** The four rank directions, spelled out. */
  lemma RankDirLiterals(rd: RankDir)
    ensures rd == TB ==> RankDirText(rd) == "tb"
    ensures rd == BT ==> RankDirText(rd) == "bt"
    ensures rd == LR ==> RankDirText(rd) == "lr"
    ensures rd == RL ==> RankDirText(rd) == "rl"
  {
  }

  /** Distinct rank directions are written differently. */
  lemma RankDirTextInjective(a: RankDir, b: RankDir)
    ensures RankDirText(a) == RankDirText(b) <==> a == b
  {
    RankDirLiterals(a);
    RankDirLiterals(b);
    if RankDirText(a) == RankDirText(b) {
      assert RankDirText(a)[0] == RankDirText(b)[0];
      assert RankDirText(a)[1] == RankDirText(b)[1];
    }
  }

  datatype Splines = None | Line | Curved | Polyline | Spline | Ortho

  /** The variant's name, as `IntoStaticStr` gives it. */
  function SplinesName(s: Splines): string
  {
    match s
    case None => "None"
    case Line => "Line"
    case Curved => "Curved"
    case Polyline => "Polyline"
    case Spline => "Spline"
    case Ortho => "Ortho"
  }

  /** A spline mode is its variant name lower-cased. */
  function SplinesText(s: Splines): string
  {
    ToLower(SplinesName(s))
  }

  /** Every spline mode, spelled out, including `none` (no edge drawn) and `ortho`. */
  lemma SplinesLiterals(s: Splines)
    ensures s == None ==> SplinesText(s) == "none"
    ensures s == Line ==> SplinesText(s) == "line"
    ensures s == Curved ==> SplinesText(s) == "curved"
    ensures s == Polyline ==> SplinesText(s) == "polyline"
    ensures s == Spline ==> SplinesText(s) == "spline"
    ensures s == Ortho ==> SplinesText(s) == "ortho"
  {
  }

  datatype GraphStyleItem =
    | Rankdir(rankDir: RankDir)
    | NodeSep(unit: nat, decimal: nat)
    | Concentrate(concentrate: bool)
    | SplinesMode(splines: Splines)

  /** The DOT attribute a graph style item sets. */
  function GraphAttrName(it: GraphStyleItem): string
  {
    match it
    case Rankdir(_) => "rankdir"
    case NodeSep(_, _) => "nodesep"
    case Concentrate(_) => "concentrate"
    case SplinesMode(_) => "splines"
  }

  /** Rust's `Display` for `bool`. */
  function BoolText(b: bool): string
  {
    if b then "true" else "false"
  }

  /**
    The value a graph style item writes: a lower-cased rank direction or
    spline mode, `true`/`false`, or the two numbers of a node separation
    around a `.`, each in plain decimal (so the decimal part keeps no
    leading zero).
   */
  function GraphAttrValue(it: GraphStyleItem): string
  {
    match it
    case Rankdir(rd) => RankDirText(rd)
    case NodeSep(u, d) => NatToString(u) + "." + NatToString(d)
    case Concentrate(b) => BoolText(b)
    case SplinesMode(s) => SplinesText(s)
  }

  /** The DOT fragment of a graph style item. */
  function GraphStyleItemText(it: GraphStyleItem): string
  {
    Attr(GraphAttrName(it), GraphAttrValue(it))
  }

  lemma GraphAttrNameClean(it: GraphStyleItem)
    ensures '=' !in GraphAttrName(it)
  {
  }

  /**
    A graph style item's fragment reads back: its key is the attribute the
    item sets, the node separation's two numbers parse back from either
    side of the `.`, `concentrate` is `true` exactly when it is set, and
    the enumerations give back their own text.
   */
  lemma GraphStyleItemReadBack(it: GraphStyleItem)
    ensures KeyOf(GraphStyleItemText(it)) == GraphAttrName(it)
    ensures it.Rankdir? ==> ValueOf(GraphStyleItemText(it)) == RankDirText(it.rankDir)
    ensures it.NodeSep? ==>
      && Options.Some(it.unit) == ParseNat(Before(ValueOf(GraphStyleItemText(it)), '.'))
      && Options.Some(it.decimal) == ParseNat(After(ValueOf(GraphStyleItemText(it)), '.'))
    ensures it.Concentrate? ==> ValueOf(GraphStyleItemText(it)) == (if it.concentrate then "true" else "false")
    ensures it.SplinesMode? ==> ValueOf(GraphStyleItemText(it)) == SplinesText(it.splines)
  {
    GraphAttrNameClean(it);
    KeyValueRoundTrip(GraphAttrName(it), GraphAttrValue(it));
    match it
    case NodeSep(u, d) =>
      var us := NatToString(u);
      assert '.' !in us by {
        assert forall k :: 0 <= k < |us| ==> IsDigit(us[k]);
      }
      BeforeAfter(us, '.', NatToString(d));
      NatToStringRoundTrip(u);
      NatToStringRoundTrip(d);
    case Concentrate(b) =>
    case _ =>
  }

  /** A graph style value never holds `=`. */
  lemma GraphAttrValueClean(it: GraphStyleItem)
    ensures '=' !in GraphAttrValue(it)
  {
    match it
    case Rankdir(rd) =>
      ToLowerKeepsNonLetter(RankDirName(rd), '=');
    case NodeSep(u, d) =>
      DigitsHaveNoEquals(NatToString(u));
      DigitsHaveNoEquals(NatToString(d));
    case Concentrate(b) =>
    case SplinesMode(sp) =>
      ToLowerKeepsNonLetter(SplinesName(sp), '=');
  }

  lemma DigitsHaveNoEquals(s: string)
    requires AllDigits(s)
    ensures '=' !in s
  {
    assert forall k :: 0 <= k < |s| ==> IsDigit(s[k]);
  }

  /**
    A graph style fragment is one `key=value` pair: it holds exactly one
    `=`, the one between the attribute and its value.
   */
  lemma GraphStyleItemOneEquals(it: GraphStyleItem)
    ensures multiset(GraphStyleItemText(it))['='] == 1
  {
    GraphAttrNameClean(it);
    GraphAttrValueClean(it);
    var name := GraphAttrName(it);
    var value := GraphAttrValue(it);
    assert multiset(name + "=" + value) == multiset(name) + multiset("=") + multiset(value);
  }

  /** Distinct graph style items are written differently. */
  lemma GraphStyleItemTextInjective(a: GraphStyleItem, b: GraphStyleItem)
    ensures GraphStyleItemText(a) == GraphStyleItemText(b) <==> a == b
  {
    if GraphStyleItemText(a) == GraphStyleItemText(b) {
      GraphStyleItemReadBack(a);
      GraphStyleItemReadBack(b);
      assert GraphAttrName(a) == GraphAttrName(b);
      assert a.Rankdir? <==> b.Rankdir? by {
        assert "rankdir"[0] != "nodesep"[0] && "rankdir"[0] != "concentrate"[0] && "rankdir"[0] != "splines"[0];
      }
      assert a.NodeSep? <==> b.NodeSep? by {
        assert "nodesep"[0] != "concentrate"[0] && "nodesep"[0] != "splines"[0];
      }
      assert a.Concentrate? <==> b.Concentrate? by {
        assert "concentrate"[0] != "splines"[0];
      }
      if a.Rankdir? {
        RankDirTextInjective(a.rankDir, b.rankDir);
      } else if a.SplinesMode? {
        SplinesTextInjective(a.splines, b.splines);
      }
    }
  }

  /** Distinct spline modes are written differently. */
  lemma SplinesTextInjective(a: Splines, b: Splines)
    ensures SplinesText(a) == SplinesText(b) <==> a == b
  {
    if SplinesText(a) == SplinesText(b) {
      assert SplinesText(a)[0] == SplinesText(b)[0];
    }
  }

}
