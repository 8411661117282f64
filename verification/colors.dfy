/**
  A Graphviz color. The palette and its serialisation live outside the
  modelled core, so a color is represented by the DOT literal it prints as
  (a name such as `red` or an RGB literal).
 */
module Colors {

  datatype Color = Color(dotText: string)

  /** The DOT literal the color serialises to. */
  function ColorText(c: Color): string
  {
    c.dotText
  }

}
