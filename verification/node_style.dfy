/**
  Node style attributes (also used as the style of a cluster): style kinds
  and their quoted comma-separated list, node shapes, and the node style
  items, each serialising to a DOT fragment.
 */
module NodeStyle {

  import opened Options
  import opened DotText
  import Colors

  datatype NodeStyleKind =
    | Solid | Dashed | Dotted | Bold | Rounded | Diagonals | Filled | Striped | Wedged | Invis

  /** The variant's name, as `IntoStaticStr` gives it. */
  function StyleKindName(k: NodeStyleKind): string
  {
    match k
    case Solid => "Solid"
    case Dashed => "Dashed"
    case Dotted => "Dotted"
    case Bold => "Bold"
    case Rounded => "Rounded"
    case Diagonals => "Diagonals"
    case Filled => "Filled"
    case Striped => "Striped"
    case Wedged => "Wedged"
    case Invis => "Invis"
  }

  /** A style kind is its variant name lower-cased. */
  function StyleKindText(k: NodeStyleKind): string
  {
    ToLower(StyleKindName(k))
  }

  /** Lower-casing the names of the outline style kinds. */
  lemma LineStyleKindNamesLowered()
    ensures ToLower("Solid") == "solid"
    ensures ToLower("Dashed") == "dashed"
    ensures ToLower("Dotted") == "dotted"
    ensures ToLower("Bold") == "bold"
    ensures ToLower("Invis") == "invis"
  {
  }

  /** The words of the style kinds that set how the outline is drawn. */
  lemma LineStyleKindLiterals(k: NodeStyleKind)
    ensures k == Solid ==> StyleKindText(k) == "solid"
    ensures k == Dashed ==> StyleKindText(k) == "dashed"
    ensures k == Dotted ==> StyleKindText(k) == "dotted"
    ensures k == Bold ==> StyleKindText(k) == "bold"
    ensures k == Invis ==> StyleKindText(k) == "invis"
  {
    LineStyleKindNamesLowered();
  }

  /** Lower-casing the names of the filling style kinds. */
  lemma FillStyleKindNamesLowered()
    ensures ToLower("Rounded") == "rounded"
    ensures ToLower("Diagonals") == "diagonals"
    ensures ToLower("Filled") == "filled"
    ensures ToLower("Striped") == "striped"
    ensures ToLower("Wedged") == "wedged"
  {
  }

  /** The words of the style kinds that shape or fill the node. */
  lemma FillStyleKindLiterals(k: NodeStyleKind)
    ensures k == Rounded ==> StyleKindText(k) == "rounded"
    ensures k == Diagonals ==> StyleKindText(k) == "diagonals"
    ensures k == Filled ==> StyleKindText(k) == "filled"
    ensures k == Striped ==> StyleKindText(k) == "striped"
    ensures k == Wedged ==> StyleKindText(k) == "wedged"
  {
    FillStyleKindNamesLowered();
  }

  /** The word of every style kind, spelled out. */
  lemma StyleKindLiterals(k: NodeStyleKind)
    ensures k == Solid ==> StyleKindText(k) == "solid"
    ensures k == Dashed ==> StyleKindText(k) == "dashed"
    ensures k == Dotted ==> StyleKindText(k) == "dotted"
    ensures k == Bold ==> StyleKindText(k) == "bold"
    ensures k == Invis ==> StyleKindText(k) == "invis"
    ensures k == Rounded ==> StyleKindText(k) == "rounded"
    ensures k == Diagonals ==> StyleKindText(k) == "diagonals"
    ensures k == Filled ==> StyleKindText(k) == "filled"
    ensures k == Striped ==> StyleKindText(k) == "striped"
    ensures k == Wedged ==> StyleKindText(k) == "wedged"
  {
    LineStyleKindLiterals(k);
    FillStyleKindLiterals(k);
  }

  /** The style kind a word names, if any: the reader of `StyleKindText`. */
  function StyleKindFromText(t: string): Option<NodeStyleKind>
  {
    if t == "solid" then Some(Solid)
    else if t == "dashed" then Some(Dashed)
    else if t == "dotted" then Some(Dotted)
    else if t == "bold" then Some(Bold)
    else if t == "rounded" then Some(Rounded)
    else if t == "diagonals" then Some(Diagonals)
    else if t == "filled" then Some(Filled)
    else if t == "striped" then Some(Striped)
    else if t == "wedged" then Some(Wedged)
    else if t == "invis" then Some(Invis)
    else None
  }

  /** Every style kind's word reads back as that kind, so distinct kinds are written differently. */
  lemma StyleKindTextInjective(a: NodeStyleKind, b: NodeStyleKind)
    ensures StyleKindFromText(StyleKindText(a)) == Some(a)
    ensures StyleKindText(a) == StyleKindText(b) <==> a == b
  {
    StyleKindLiterals(a);
    StyleKindLiterals(b);
  }

  /** No style kind's word contains a comma, and none is empty. */
  lemma StyleKindWord(k: NodeStyleKind)
    ensures ',' !in StyleKindText(k)
    ensures |StyleKindText(k)| >= 1
  {
    ToLowerKeepsNonLetter(StyleKindName(k), ',');
  }

  function StyleKindTexts(kinds: seq<NodeStyleKind>): seq<string>
  {
    seq(|kinds|, i requires 0 <= i < |kinds| => StyleKindText(kinds[i]))
  }

  /**
    A style list: the kinds comma-joined in order, between double quotes.
    Only the empty list gives two bare quotes.
   */
  function StyleListText(kinds: seq<NodeStyleKind>): string
  {
    Quote(Join(StyleKindTexts(kinds), ","))
  }

  /**
    A style list is quoted; only the empty list gives two bare quotes, and
    between the quotes the comma-separated fields are the kinds' words in
    order.
   */
  lemma StyleListFields(kinds: seq<NodeStyleKind>)
    ensures var r := StyleListText(kinds);
            && 2 <= |r| && r[0] == '"' && r[|r| - 1] == '"'
            && (r == "\"\"" <==> |kinds| == 0)
            && (|kinds| >= 1 ==> Split(r[1..|r| - 1], ',') == StyleKindTexts(kinds))
  {
    var texts := StyleKindTexts(kinds);
    var r := StyleListText(kinds);
    assert r[1..|r| - 1] == Join(texts, ",");
    if |kinds| >= 1 {
      forall i | 0 <= i < |texts|
        ensures ',' !in texts[i]
      {
        StyleKindWord(kinds[i]);
      }
      JoinSplit(texts, ',');
      StyleKindWord(kinds[0]);
      assert |Join(texts, ",")| >= |texts[0]|;
    }
  }

  datatype NodeShape =
    | Ellipse | Circle | DoubleCircle | Triangle | Diamond | Trapezium | Parallelogram
    | House | Pentagon | Hexagon | Septagon | Octagon | Rectangle | Square
    | InvTriangle | InvTrapezium | InvHouse | Star | PlainText | Point

  /** The variant's name, as `IntoStaticStr` gives it. */
  function ShapeName(s: NodeShape): string
  {
    match s
    case Ellipse => "Ellipse"
    case Circle => "Circle"
    case DoubleCircle => "DoubleCircle"
    case Triangle => "Triangle"
    case Diamond => "Diamond"
    case Trapezium => "Trapezium"
    case Parallelogram => "Parallelogram"
    case House => "House"
    case Pentagon => "Pentagon"
    case Hexagon => "Hexagon"
    case Septagon => "Septagon"
    case Octagon => "Octagon"
    case Rectangle => "Rectangle"
    case Square => "Square"
    case InvTriangle => "InvTriangle"
    case InvTrapezium => "InvTrapezium"
    case InvHouse => "InvHouse"
    case Star => "Star"
    case PlainText => "PlainText"
    case Point => "Point"
  }

  /** A shape is its variant name lower-cased, with no separator between words. */
  function ShapeText(s: NodeShape): string
  {
    ToLower(ShapeName(s))
  }

  /** Lower-casing the names of the round shapes. */
  lemma RoundShapeNamesLowered()
    ensures ToLower("Ellipse") == "ellipse"
    ensures ToLower("Circle") == "circle"
    ensures ToLower("DoubleCircle") == "doublecircle"
    ensures ToLower("Point") == "point"
    ensures ToLower("Star") == "star"
  {
  }

  /** The words of the round shapes. */
  lemma RoundShapeLiterals(s: NodeShape)
    ensures s == Ellipse ==> ShapeText(s) == "ellipse"
    ensures s == Circle ==> ShapeText(s) == "circle"
    ensures s == DoubleCircle ==> ShapeText(s) == "doublecircle"
    ensures s == Point ==> ShapeText(s) == "point"
    ensures s == Star ==> ShapeText(s) == "star"
  {
    RoundShapeNamesLowered();
  }

  /** Lower-casing the names of the triangular shapes. */
  lemma TriangularShapeNamesLowered()
    ensures ToLower("Triangle") == "triangle"
    ensures ToLower("InvTriangle") == "invtriangle"
    ensures ToLower("Trapezium") == "trapezium"
    ensures ToLower("InvTrapezium") == "invtrapezium"
    ensures ToLower("Diamond") == "diamond"
  {
  }

  /** The words of the triangles, trapezia and the diamond. */
  lemma TriangularShapeLiterals(s: NodeShape)
    ensures s == Triangle ==> ShapeText(s) == "triangle"
    ensures s == InvTriangle ==> ShapeText(s) == "invtriangle"
    ensures s == Trapezium ==> ShapeText(s) == "trapezium"
    ensures s == InvTrapezium ==> ShapeText(s) == "invtrapezium"
    ensures s == Diamond ==> ShapeText(s) == "diamond"
  {
    TriangularShapeNamesLowered();
  }

  /** Lower-casing the names of the four-sided shapes. */
  lemma BoxShapeNamesLowered()
    ensures ToLower("Parallelogram") == "parallelogram"
    ensures ToLower("Rectangle") == "rectangle"
    ensures ToLower("Square") == "square"
    ensures ToLower("House") == "house"
    ensures ToLower("InvHouse") == "invhouse"
  {
  }

  /** The words of the four-sided and house shapes. */
  lemma BoxShapeLiterals(s: NodeShape)
    ensures s == Parallelogram ==> ShapeText(s) == "parallelogram"
    ensures s == Rectangle ==> ShapeText(s) == "rectangle"
    ensures s == Square ==> ShapeText(s) == "square"
    ensures s == House ==> ShapeText(s) == "house"
    ensures s == InvHouse ==> ShapeText(s) == "invhouse"
  {
    BoxShapeNamesLowered();
  }

  /** Lower-casing the names of the polygons and plain text. */
  lemma PolygonShapeNamesLowered()
    ensures ToLower("Pentagon") == "pentagon"
    ensures ToLower("Hexagon") == "hexagon"
    ensures ToLower("Septagon") == "septagon"
    ensures ToLower("Octagon") == "octagon"
    ensures ToLower("PlainText") == "plaintext"
  {
  }

  /** The words of the regular polygons and of plain text. */
  lemma PolygonShapeLiterals(s: NodeShape)
    ensures s == Pentagon ==> ShapeText(s) == "pentagon"
    ensures s == Hexagon ==> ShapeText(s) == "hexagon"
    ensures s == Septagon ==> ShapeText(s) == "septagon"
    ensures s == Octagon ==> ShapeText(s) == "octagon"
    ensures s == PlainText ==> ShapeText(s) == "plaintext"
  {
    PolygonShapeNamesLowered();
  }

  /** The word of every shape, spelled out: multi-word names run together. */
  lemma ShapeLiterals(s: NodeShape)
    ensures s == Ellipse ==> ShapeText(s) == "ellipse"
    ensures s == Circle ==> ShapeText(s) == "circle"
    ensures s == DoubleCircle ==> ShapeText(s) == "doublecircle"
    ensures s == Triangle ==> ShapeText(s) == "triangle"
    ensures s == Diamond ==> ShapeText(s) == "diamond"
    ensures s == Trapezium ==> ShapeText(s) == "trapezium"
    ensures s == Parallelogram ==> ShapeText(s) == "parallelogram"
    ensures s == House ==> ShapeText(s) == "house"
    ensures s == Pentagon ==> ShapeText(s) == "pentagon"
    ensures s == Hexagon ==> ShapeText(s) == "hexagon"
    ensures s == Septagon ==> ShapeText(s) == "septagon"
    ensures s == Octagon ==> ShapeText(s) == "octagon"
    ensures s == Rectangle ==> ShapeText(s) == "rectangle"
    ensures s == Square ==> ShapeText(s) == "square"
    ensures s == InvTriangle ==> ShapeText(s) == "invtriangle"
    ensures s == InvTrapezium ==> ShapeText(s) == "invtrapezium"
    ensures s == InvHouse ==> ShapeText(s) == "invhouse"
    ensures s == Star ==> ShapeText(s) == "star"
    ensures s == PlainText ==> ShapeText(s) == "plaintext"
    ensures s == Point ==> ShapeText(s) == "point"
  {
    RoundShapeLiterals(s);
    TriangularShapeLiterals(s);
    BoxShapeLiterals(s);
    PolygonShapeLiterals(s);
  }

  /** The shape a word names, if any: the reader of `ShapeText`. */
  function ShapeFromText(t: string): Option<NodeShape>
  {
    if t == "ellipse" then Some(Ellipse)
    else if t == "circle" then Some(Circle)
    else if t == "doublecircle" then Some(DoubleCircle)
    else if t == "triangle" then Some(Triangle)
    else if t == "diamond" then Some(Diamond)
    else if t == "trapezium" then Some(Trapezium)
    else if t == "parallelogram" then Some(Parallelogram)
    else if t == "house" then Some(House)
    else if t == "pentagon" then Some(Pentagon)
    else if t == "hexagon" then Some(Hexagon)
    else if t == "septagon" then Some(Septagon)
    else if t == "octagon" then Some(Octagon)
    else if t == "rectangle" then Some(Rectangle)
    else if t == "square" then Some(Square)
    else if t == "invtriangle" then Some(InvTriangle)
    else if t == "invtrapezium" then Some(InvTrapezium)
    else if t == "invhouse" then Some(InvHouse)
    else if t == "star" then Some(Star)
    else if t == "plaintext" then Some(PlainText)
    else if t == "point" then Some(Point)
    else None
  }

  /** Every shape's word reads back as that shape, so distinct shapes are written differently. */
  lemma ShapeTextInjective(a: NodeShape, b: NodeShape)
    ensures ShapeFromText(ShapeText(a)) == Some(a)
    ensures ShapeText(a) == ShapeText(b) <==> a == b
  {
    ShapeLiterals(a);
    ShapeLiterals(b);
  }

  datatype NodeStyleItem =
    | Style(kinds: seq<NodeStyleKind>)
    | Shape(shape: NodeShape)
    | Label(labelText: string)
    | Image(imagePath: string)
    | Color(color: Colors.Color)
    | FillColor(fillColor: Colors.Color)
    | FontColor(fontColor: Colors.Color)
    | FontSize(fontSize: nat)
    | FontName(fontName: string)
    | Height(height: nat)
    | Width(width: nat)
    | Peripheries(peripheries: nat)
    | PenWidth(penWidth: nat)

  /**
    The DOT attribute a node style item sets. `Image` and `FillColor` write
    two fragments; this is the attribute of the first one.
   */
  function NodeAttrName(it: NodeStyleItem): string
  {
    match it
    case Style(_) => "style"
    case Shape(_) => "shape"
    case Label(_) => "label"
    case Image(_) => "imagescale"
    case Color(_) => "color"
    case FillColor(_) => "style"
    case FontColor(_) => "fontcolor"
    case FontSize(_) => "fontsize"
    case FontName(_) => "fontname"
    case Height(_) => "height"
    case Width(_) => "width"
    case Peripheries(_) => "peripheries"
    case PenWidth(_) => "penwidth"
  }

  /**
    What follows the first `=` of a node style item's text. For `Image` and
    `FillColor` this runs on past a `;` into the second fragment.
   */
  function NodeAttrValue(it: NodeStyleItem): string
  {
    match it
    case PenWidth(n) => NatToString(n)
    case Height(n) => NatToString(n)
    case Width(n) => NatToString(n)
    case Peripheries(n) => NatToString(n)
    case Style(kinds) => StyleListText(kinds)
    case Shape(s) => ShapeText(s)
    case Label(text) => Quote(text)
    case Image(path) => "true" + ";" + Attr("image", Quote(path))
    case Color(c) => Colors.ColorText(c)
    case FillColor(c) => "filled" + ";" + Attr("fillcolor", Colors.ColorText(c))
    case FontColor(c) => Colors.ColorText(c)
    case FontSize(n) => NatToString(n)
    case FontName(name) => Quote(name)
  }

  /**
    The DOT fragment of a node style item: `penwidth=`, `height=`, `width=`,
    `peripheries=`, `fontsize=` with a decimal; `style="k1,k2"`; `shape=`;
    `label="…"` and `fontname="…"` quoted verbatim; `color=` and
    `fontcolor=`; `imagescale=true;image="…"`; `style=filled;fillcolor=…`.
   */
  function NodeStyleItemText(it: NodeStyleItem): string
  {
    Attr(NodeAttrName(it), NodeAttrValue(it))
  }

  /** No attribute name contains the `=` or `;` that delimit fragments. */
  lemma NodeAttrNameClean(it: NodeStyleItem)
    ensures '=' !in NodeAttrName(it) && ';' !in NodeAttrName(it)
    ensures |NodeAttrName(it)| >= 1
  {
  }

  /** Two fragments joined by `;`: the first reads as written, the second splits off after the `;`. */
  lemma TwoFragments(key: string, value: string, key2: string, value2: string)
    requires '=' !in key && ';' !in key && ';' !in value && '=' !in key2
    ensures Before(Attr(key, value + ";" + Attr(key2, value2)), ';') == Attr(key, value)
    ensures KeyOf(After(Attr(key, value + ";" + Attr(key2, value2)), ';')) == key2
    ensures ValueOf(After(Attr(key, value + ";" + Attr(key2, value2)), ';')) == value2
  {
    var second := Attr(key2, value2);
    assert Attr(key, value + ";" + second) == Attr(key, value) + ";" + second;
    assert ';' !in Attr(key, value);
    BeforeAfter(Attr(key, value), ';', second);
    KeyValueRoundTrip(key2, value2);
  }

  /** A node style item's text reads back as its attribute name and its value. */
  lemma NodeStyleItemKey(it: NodeStyleItem)
    ensures KeyOf(NodeStyleItemText(it)) == NodeAttrName(it)
    ensures ValueOf(NodeStyleItemText(it)) == NodeAttrValue(it)
  {
    NodeAttrNameClean(it);
    KeyValueRoundTrip(NodeAttrName(it), NodeAttrValue(it));
  }

  /**
    A node style item's value gives back its payload: numbers parse back to
    themselves, the style list, shape and colours are their own texts, and
    the label and font name are quoted verbatim.
   */
  lemma NodeStyleItemValue(it: NodeStyleItem)
    ensures it.PenWidth? ==> ParseNat(ValueOf(NodeStyleItemText(it))) == Some(it.penWidth)
    ensures it.Height? ==> ParseNat(ValueOf(NodeStyleItemText(it))) == Some(it.height)
    ensures it.Width? ==> ParseNat(ValueOf(NodeStyleItemText(it))) == Some(it.width)
    ensures it.Peripheries? ==> ParseNat(ValueOf(NodeStyleItemText(it))) == Some(it.peripheries)
    ensures it.FontSize? ==> ParseNat(ValueOf(NodeStyleItemText(it))) == Some(it.fontSize)
    ensures it.Style? ==> ValueOf(NodeStyleItemText(it)) == StyleListText(it.kinds)
    ensures it.Shape? ==> ValueOf(NodeStyleItemText(it)) == ShapeText(it.shape)
    ensures it.Label? ==> ValueOf(NodeStyleItemText(it)) == Quote(it.labelText)
    ensures it.FontName? ==> ValueOf(NodeStyleItemText(it)) == Quote(it.fontName)
    ensures it.Color? ==> ValueOf(NodeStyleItemText(it)) == Colors.ColorText(it.color)
    ensures it.FontColor? ==> ValueOf(NodeStyleItemText(it)) == Colors.ColorText(it.fontColor)
  {
    NodeStyleItemKey(it);
    match it
    case PenWidth(n) => NatToStringRoundTrip(n);
    case Height(n) => NatToStringRoundTrip(n);
    case Width(n) => NatToStringRoundTrip(n);
    case Peripheries(n) => NatToStringRoundTrip(n);
    case FontSize(n) => NatToStringRoundTrip(n);
    case _ =>
  }

  /**
    `Image` and `FillColor` are two fragments separated by `;`:
    `imagescale=true` then `image="<path>"`, and `style=filled` then
    `fillcolor=<color>`.
   */
  lemma NodeStyleItemFragments(it: NodeStyleItem)
    ensures it.Image? ==>
      && Before(NodeStyleItemText(it), ';') == Attr("imagescale", "true")
      && KeyOf(After(NodeStyleItemText(it), ';')) == "image"
      && ValueOf(After(NodeStyleItemText(it), ';')) == Quote(it.imagePath)
    ensures it.FillColor? ==>
      && Before(NodeStyleItemText(it), ';') == Attr("style", "filled")
      && KeyOf(After(NodeStyleItemText(it), ';')) == "fillcolor"
      && ValueOf(After(NodeStyleItemText(it), ';')) == Colors.ColorText(it.fillColor)
  {
    if it.Image? {
      TwoFragments("imagescale", "true", "image", Quote(it.imagePath));
    } else if it.FillColor? {
      TwoFragments("style", "filled", "fillcolor", Colors.ColorText(it.fillColor));
    }
  }

}
