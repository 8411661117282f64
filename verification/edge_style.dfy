/**
  Edge style attributes: the arrowhead grammar (fill, side and shape), the
  line style, and the edge style items, each serialising to one
  `key=value` DOT fragment.
 */
module EdgeStyle {

  import opened Options
  import opened DotText
  import Colors

  datatype ArrowHeadFill = Open | Filled

  datatype ArrowHeadSide = Left | Right | Both

  datatype ArrowHeadStyle =
    | NoArrow
    | Normal(fill: ArrowHeadFill, side: ArrowHeadSide)
    | Box(fill: ArrowHeadFill, side: ArrowHeadSide)
    | Crow(side: ArrowHeadSide)
    | Curve(side: ArrowHeadSide)
    | ICurve(fill: ArrowHeadFill, side: ArrowHeadSide)
    | Diamond(fill: ArrowHeadFill, side: ArrowHeadSide)
    | Dot(fill: ArrowHeadFill)
    | Inv(fill: ArrowHeadFill, side: ArrowHeadSide)
    | Tee(side: ArrowHeadSide)
    | Vee(side: ArrowHeadSide)

  /** The `o` modifier marks an open shape; a filled shape is the default and has no modifier. */
  function FillText(f: ArrowHeadFill): (r: string)
    ensures |r| <= 1
    ensures r == "" <==> f == Filled
    ensures f == Open ==> r == "o"
  {
    match f
    case Open => "o"
    case Filled => ""
  }

  /** The `l`/`r` modifier keeps one half of the shape; both halves is the default and has no modifier. */
  function SideText(s: ArrowHeadSide): (r: string)
    ensures |r| <= 1
    ensures r == "" <==> s == Both
    ensures s == Left ==> r == "l"
    ensures s == Right ==> r == "r"
  {
    match s
    case Left => "l"
    case Right => "r"
    case Both => ""
  }

  /** Shapes that take both a fill and a side modifier. */
  predicate TakesFillAndSide(a: ArrowHeadStyle)
  {
    a.Normal? || a.Box? || a.ICurve? || a.Diamond? || a.Inv?
  }

  /** Shapes that take a side modifier only. */
  predicate TakesSideOnly(a: ArrowHeadStyle)
  {
    a.Crow? || a.Curve? || a.Tee? || a.Vee?
  }

  /** The modifiers written before the shape name (the first `match` of the serialiser). */
  function ArrowModifiers(a: ArrowHeadStyle): string
  {
    match a
    case Box(fill, side) => FillText(fill) + (if side.Both? then "" else SideText(side))
    case ICurve(fill, side) => FillText(fill) + (if side.Both? then "" else SideText(side))
    case Diamond(fill, side) => FillText(fill) + (if side.Both? then "" else SideText(side))
    case Inv(fill, side) => FillText(fill) + (if side.Both? then "" else SideText(side))
    case Normal(fill, side) => FillText(fill) + (if side.Both? then "" else SideText(side))
    case Dot(fill) => FillText(fill)
    case Crow(side) => if side.Both? then "" else SideText(side)
    case Curve(side) => if side.Both? then "" else SideText(side)
    case Tee(side) => if side.Both? then "" else SideText(side)
    case Vee(side) => if side.Both? then "" else SideText(side)
    case NoArrow => ""
  }

  /** The shape name (the second `match` of the serialiser). */
  function ArrowShapeName(a: ArrowHeadStyle): string
  {
    match a
    case NoArrow => "none"
    case Normal(_, _) => "normal"
    case Box(_, _) => "box"
    case Crow(_) => "crow"
    case Curve(_) => "curve"
    case ICurve(_, _) => "icurve"
    case Diamond(_, _) => "diamond"
    case Dot(_) => "dot"
    case Inv(_, _) => "inv"
    case Tee(_) => "tee"
    case Vee(_) => "vee"
  }

  /** The arrowhead as a DOT arrow type: its modifiers, then its shape name. */
  function ArrowHeadText(a: ArrowHeadStyle): string
  {
    ArrowModifiers(a) + ArrowShapeName(a)
  }

  /**
    The asymmetric arrow grammar: shapes with fill and side give fill code,
    side code, name; shapes with a side only give side code, name; `dot`
    takes a fill code only; `none` takes nothing. The name always ends the
    text and is preceded by at most two characters.
   */
  lemma ArrowHeadTextGrammar(a: ArrowHeadStyle)
    ensures a.NoArrow? ==> ArrowHeadText(a) == "none"
    ensures a.Dot? ==> ArrowHeadText(a) == FillText(a.fill) + "dot"
    ensures TakesFillAndSide(a) ==> ArrowHeadText(a) == FillText(a.fill) + SideText(a.side) + ArrowShapeName(a)
    ensures TakesSideOnly(a) ==> ArrowHeadText(a) == SideText(a.side) + ArrowShapeName(a)
    ensures |ArrowShapeName(a)| <= |ArrowHeadText(a)| <= |ArrowShapeName(a)| + 2
    ensures ArrowHeadText(a)[|ArrowHeadText(a)| - |ArrowShapeName(a)|..] == ArrowShapeName(a)
  {
  }

  /** An open left-half triangle and a left-half crow's foot. */
  lemma ArrowHeadExamples()
    ensures ArrowHeadText(Normal(Open, Left)) == "olnormal"
    ensures ArrowHeadText(Crow(Left)) == "lcrow"
    ensures ArrowHeadText(Dot(Filled)) == "dot"
  {
    ArrowHeadTextGrammar(Normal(Open, Left));
    ArrowHeadTextGrammar(Crow(Left));
  }

  /**
    The arrow-type grammar read from the front: an optional `o`, an
    optional `l` or `r`, then a shape name, with the modifiers each shape
    admits. None of the shape names starts with a modifier letter.
   */
  function ParseArrowHead(s: string): Option<ArrowHeadStyle>
  {
    if |s| > 0 && s[0] == 'o' then ParseSided(Open, s[1..]) else ParseSided(Filled, s)
  }

  /** The rest of the grammar, once the fill modifier is read. */
  function ParseSided(fill: ArrowHeadFill, s: string): Option<ArrowHeadStyle>
  {
    if |s| > 0 && s[0] == 'l' then ArrowFromParts(fill, Left, s[1..])
    else if |s| > 0 && s[0] == 'r' then ArrowFromParts(fill, Right, s[1..])
    else ArrowFromParts(fill, Both, s)
  }

  function ArrowFromParts(fill: ArrowHeadFill, side: ArrowHeadSide, name: string): Option<ArrowHeadStyle>
  {
    if name == "normal" then Some(Normal(fill, side))
    else if name == "box" then Some(Box(fill, side))
    else if name == "icurve" then Some(ICurve(fill, side))
    else if name == "diamond" then Some(Diamond(fill, side))
    else if name == "inv" then Some(Inv(fill, side))
    else if fill == Open then
      (if name == "dot" && side == Both then Some(Dot(Open)) else None)
    else if name == "crow" then Some(Crow(side))
    else if name == "curve" then Some(Curve(side))
    else if name == "tee" then Some(Tee(side))
    else if name == "vee" then Some(Vee(side))
    else if side != Both then None
    else if name == "dot" then Some(Dot(Filled))
    else if name == "none" then Some(NoArrow)
    else None
  }

  /** Modifiers followed by a name that does not start with a modifier letter read back as themselves. */
  lemma ParseModified(f: ArrowHeadFill, d: ArrowHeadSide, name: string)
    requires |name| > 0 && name[0] != 'o' && name[0] != 'l' && name[0] != 'r'
    ensures ParseArrowHead(FillText(f) + SideText(d) + name) == ArrowFromParts(f, d, name)
  {
    var rest := SideText(d) + name;
    assert rest[|SideText(d)|..] == name;
    assert (FillText(f) + rest)[|FillText(f)|..] == rest;
  }

  /** The fill an arrowhead is drawn with; shapes without a fill modifier are filled. */
  function FillOf(a: ArrowHeadStyle): ArrowHeadFill
  {
    if TakesFillAndSide(a) || a.Dot? then a.fill else Filled
  }

  /** The side an arrowhead keeps; shapes without a side modifier keep both. */
  function SideOf(a: ArrowHeadStyle): ArrowHeadSide
  {
    if TakesFillAndSide(a) || TakesSideOnly(a) then a.side else Both
  }

  /** The text is the fill code, the side code and the shape name, for every shape. */
  lemma ArrowHeadTextParts(a: ArrowHeadStyle)
    ensures ArrowHeadText(a) == FillText(FillOf(a)) + SideText(SideOf(a)) + ArrowShapeName(a)
  {
  }

  /** Every arrowhead's text reads back as that arrowhead. */
  lemma ArrowHeadRoundTrip(a: ArrowHeadStyle)
    ensures ParseArrowHead(ArrowHeadText(a)) == Some(a)
  {
    ArrowHeadTextParts(a);
    ParseModified(FillOf(a), SideOf(a), ArrowShapeName(a));
    assert ArrowFromParts(FillOf(a), SideOf(a), ArrowShapeName(a)) == Some(a);
  }

  /** An arrowhead built from modifiers and a name prints as those modifiers and that name. */
  lemma FromPartsCanonical(f: ArrowHeadFill, d: ArrowHeadSide, name: string)
    requires ArrowFromParts(f, d, name).Some?
    ensures ArrowHeadText(ArrowFromParts(f, d, name).value) == FillText(f) + SideText(d) + name
  {
    var a := ArrowFromParts(f, d, name).value;
    ArrowHeadTextParts(a);
    assert FillOf(a) == f && SideOf(a) == d && ArrowShapeName(a) == name;
  }

  lemma SidedCanonical(f: ArrowHeadFill, s: string)
    requires ParseSided(f, s).Some?
    ensures ArrowHeadText(ParseSided(f, s).value) == FillText(f) + s
  {
    if |s| > 0 && s[0] == 'l' {
      FromPartsCanonical(f, Left, s[1..]);
      assert s == "l" + s[1..];
    } else if |s| > 0 && s[0] == 'r' {
      FromPartsCanonical(f, Right, s[1..]);
      assert s == "r" + s[1..];
    } else {
      FromPartsCanonical(f, Both, s);
    }
  }

  /** Every text the grammar accepts is the text of the arrowhead it reads. */
  lemma ArrowHeadParseCanonical(s: string)
    requires ParseArrowHead(s).Some?
    ensures ArrowHeadText(ParseArrowHead(s).value) == s
  {
    if |s| > 0 && s[0] == 'o' {
      SidedCanonical(Open, s[1..]);
      assert s == "o" + s[1..];
    } else {
      SidedCanonical(Filled, s);
    }
  }

  /** Distinct arrowheads print differently. */
  lemma ArrowHeadTextInjective(a: ArrowHeadStyle, b: ArrowHeadStyle)
    ensures ArrowHeadText(a) == ArrowHeadText(b) ==> a == b
  {
    ArrowHeadRoundTrip(a);
    ArrowHeadRoundTrip(b);
  }

  datatype EdgeLineStyle = Solid | Dashed | Dotted | Bold

  /** The variant's name, as `IntoStaticStr` gives it. */
  function LineStyleName(l: EdgeLineStyle): string
  {
    match l
    case Solid => "Solid"
    case Dashed => "Dashed"
    case Dotted => "Dotted"
    case Bold => "Bold"
  }

  /** A line style is its variant name lower-cased. */
  function LineStyleText(l: EdgeLineStyle): string
  {
    ToLower(LineStyleName(l))
  }

  /** The word of every line style, spelled out. */
  lemma LineStyleLiterals(l: EdgeLineStyle)
    ensures l == Solid ==> LineStyleText(l) == "solid"
    ensures l == Dashed ==> LineStyleText(l) == "dashed"
    ensures l == Dotted ==> LineStyleText(l) == "dotted"
    ensures l == Bold ==> LineStyleText(l) == "bold"
  {
  }

  datatype EdgeStyleItem =
    | LineStyle(lineStyle: EdgeLineStyle)
    | Label(labelText: string)
    | Head(head: ArrowHeadStyle)
    | Tail(tail: ArrowHeadStyle)
    | Color(color: Colors.Color)
    | FontColor(fontColor: Colors.Color)
    | ArrowSize(arrowSize: nat)
    | FontSize(fontSize: nat)

  /** The DOT attribute each edge style item sets. */
  function EdgeAttrName(it: EdgeStyleItem): string
  {
    match it
    case LineStyle(_) => "style"
    case Label(_) => "label"
    case Head(_) => "arrowhead"
    case Tail(_) => "arrowtail"
    case Color(_) => "color"
    case FontColor(_) => "fontcolor"
    case ArrowSize(_) => "arrowsize"
    case FontSize(_) => "fontsize"
  }

  function EdgeStyleItemText(it: EdgeStyleItem): string
  {
    match it
    case LineStyle(l) => Attr("style", LineStyleText(l))
    case Label(text) => Attr("label", Quote(text))
    case Head(a) => Attr("arrowhead", ArrowHeadText(a))
    case Tail(a) => Attr("arrowtail", ArrowHeadText(a))
    case Color(c) => Attr("color", Colors.ColorText(c))
    case FontColor(c) => Attr("fontcolor", Colors.ColorText(c))
    case ArrowSize(n) => Attr("arrowsize", NatToString(n))
    case FontSize(n) => Attr("fontsize", NatToString(n))
  }

  /**
    An edge style item's fragment, read back: its key is the attribute the
    item sets, and its value gives back the item's payload (a label quoted
    verbatim, an arrowhead or a number that parse back to themselves).
   */
  lemma EdgeStyleItemReadBack(it: EdgeStyleItem)
    ensures KeyOf(EdgeStyleItemText(it)) == EdgeAttrName(it)
    ensures it.LineStyle? ==> ValueOf(EdgeStyleItemText(it)) == LineStyleText(it.lineStyle)
    ensures it.Label? ==> ValueOf(EdgeStyleItemText(it)) == Quote(it.labelText)
    ensures it.Head? ==> ParseArrowHead(ValueOf(EdgeStyleItemText(it))) == Some(it.head)
    ensures it.Tail? ==> ParseArrowHead(ValueOf(EdgeStyleItemText(it))) == Some(it.tail)
    ensures it.Color? ==> ValueOf(EdgeStyleItemText(it)) == Colors.ColorText(it.color)
    ensures it.FontColor? ==> ValueOf(EdgeStyleItemText(it)) == Colors.ColorText(it.fontColor)
    ensures it.ArrowSize? ==> ParseNat(ValueOf(EdgeStyleItemText(it))) == Some(it.arrowSize)
    ensures it.FontSize? ==> ParseNat(ValueOf(EdgeStyleItemText(it))) == Some(it.fontSize)
  {
    match it
    case LineStyle(l) => KeyValueRoundTrip("style", LineStyleText(l));
    case Label(text) => KeyValueRoundTrip("label", Quote(text));
    case Head(a) =>
      KeyValueRoundTrip("arrowhead", ArrowHeadText(a));
      ArrowHeadRoundTrip(a);
    case Tail(a) =>
      KeyValueRoundTrip("arrowtail", ArrowHeadText(a));
      ArrowHeadRoundTrip(a);
    case Color(c) => KeyValueRoundTrip("color", Colors.ColorText(c));
    case FontColor(c) => KeyValueRoundTrip("fontcolor", Colors.ColorText(c));
    case ArrowSize(n) =>
      KeyValueRoundTrip("arrowsize", NatToString(n));
      NatToStringRoundTrip(n);
    case FontSize(n) =>
      KeyValueRoundTrip("fontsize", NatToString(n));
      NatToStringRoundTrip(n);
  }

}
