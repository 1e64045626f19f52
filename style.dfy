/**
 * Rendering vocabulary of the schedule graph: the layout direction and edge
 * shape tokens understood by Graphviz DOT, and the visual theme (`Style`)
 * with its three built-in presets.
 */
module DotStyle {

  predicate IsUpper(c: char) { 'A' <= c <= 'Z' }

  predicate IsLower(c: char) { 'a' <= c <= 'z' }

  /** Direction in which the graph's ranks are laid out; `LeftRight` by default. */
  datatype RankDir = TopDown | LeftRight {

    static function Default(): RankDir { LeftRight }

    /** The DOT `rankdir` token: two upper-case letters. */
    function AsDot(): (r: string)
      ensures |r| == 2
      ensures forall i :: 0 <= i < |r| ==> IsUpper(r[i])
    {
      match this
      case TopDown => "TD"
      case LeftRight => "LR"
    }
  }

  /** How edges are routed (the DOT `splines` attribute); `Spline` by default. */
  datatype EdgeStyle = None | Line | Polyline | Curved | Ortho | Spline {

    static function Default(): EdgeStyle { Spline }

    /** The DOT `splines` token: a non-empty lower-case word. */
    function AsDot(): (r: string)
      ensures |r| > 0
      ensures forall i :: 0 <= i < |r| ==> IsLower(r[i])
    {
      match this
      case None => "none"
      case Line => "line"
      case Polyline => "polyline"
      case Curved => "curved"
      case Ortho => "ortho"
      case Spline => "spline"
    }
  }

  /**
   * A visual theme. `colorEdge` is the ordered palette the graph builder
   * cycles through when several edges need distinct colours. The edge pen
   * width, a floating-point field, is not part of this model.
   */
  datatype Style = Style(
    scheduleRankdir: RankDir,
    edgeStyle: EdgeStyle,
    fontname: string,
    colorBackground: string,
    colorSystem: string,
    colorSystemBorder: string,
    colorSet: string,
    colorSetBorder: string,
    colorEdge: seq<string>,
    multipleSetEdgeColor: string,
    ambiguityColor: string,
    ambiguityBgcolor: string)
  {

    static function Light(): Style {
      Style(
        scheduleRankdir := RankDir.Default(),
        edgeStyle := EdgeStyle.Default(),
        fontname := "Helvetica",
        colorBackground := "white",
        colorSystem := "white",
        colorSystemBorder := "black",
        colorSet := "white",
        colorSetBorder := "black",
        colorEdge := ["#eede00", "#881877", "#00b0cc", "#aa3a55", "#44d488", "#0090cc",
                      "#ee9e44", "#663699", "#3363bb", "#22c2bb", "#99d955"],
        multipleSetEdgeColor := "blue",
        ambiguityColor := "#c93526",
        ambiguityBgcolor := "#d3d3d3")
    }

    static function DarkDiscord(): Style {
      Style(
        scheduleRankdir := RankDir.Default(),
        edgeStyle := EdgeStyle.Default(),
        fontname := "Helvetica",
        colorBackground := "#35393f",
        colorSystem := "#eff1f3",
        colorSystemBorder := "#eff1f3",
        colorSet := "#99aab5",
        colorSetBorder := "black",
        colorEdge := ["#eede00", "#881877", "#00b0cc", "#aa3a55", "#44d488", "#0090cc",
                      "#ee9e44", "#663699", "#3363bb", "#22c2bb", "#99d955"],
        multipleSetEdgeColor := "blue",
        ambiguityColor := "#c93526",
        ambiguityBgcolor := "#c5daeb")
    }

    static function DarkGithub(): Style {
      Style(
        scheduleRankdir := RankDir.Default(),
        edgeStyle := EdgeStyle.Default(),
        fontname := "Helvetica",
        colorBackground := "#0d1117",
        colorSystem := "#eff1f3",
        colorSystemBorder := "#eff1f3",
        colorSet := "#6f90ad",
        colorSetBorder := "black",
        colorEdge := ["#eede00", "#881877", "#00b0cc", "#aa3a55", "#44d488", "#0090cc",
                      "#ee9e44", "#663699", "#3363bb", "#22c2bb", "#99d955"],
        multipleSetEdgeColor := "blue",
        ambiguityColor := "#c93526",
        ambiguityBgcolor := "#c6e6ff")
    }

    static function Default(): Style { DarkGithub() }
  }

  /** The three built-in themes. */
  predicate IsPreset(s: Style) {
    s == Style.Light() || s == Style.DarkDiscord() || s == Style.DarkGithub()
  }

  /** No colour occurs twice in a palette, so cycling through it yields distinct colours. */
  predicate DistinctColors(palette: seq<string>) {
    forall i, j :: 0 <= i < j < |palette| ==> palette[i] != palette[j]
  }

  /** Two themes that agree on everything but the background, node and ambiguity-background colours. */
  predicate SameButThemeColors(a: Style, b: Style) {
    a.(colorBackground := b.colorBackground,
       colorSystem := b.colorSystem,
       colorSystemBorder := b.colorSystemBorder,
       colorSet := b.colorSet,
       ambiguityBgcolor := b.ambiguityBgcolor) == b
  }

  // ----- Tokens -----

  lemma RankDirTokens()
    ensures RankDir.TopDown.AsDot() == "TD"
    ensures RankDir.LeftRight.AsDot() == "LR"
    ensures RankDir.Default() == RankDir.LeftRight
  {
  }

  /** Distinct layout directions give distinct tokens. */
  lemma RankDirAsDotInjective(a: RankDir, b: RankDir)
    ensures a.AsDot() == b.AsDot() <==> a == b
  {
  }

  lemma EdgeStyleTokens()
    ensures EdgeStyle.None.AsDot() == "none"
    ensures EdgeStyle.Line.AsDot() == "line"
    ensures EdgeStyle.Polyline.AsDot() == "polyline"
    ensures EdgeStyle.Curved.AsDot() == "curved"
    ensures EdgeStyle.Ortho.AsDot() == "ortho"
    ensures EdgeStyle.Spline.AsDot() == "spline"
    ensures EdgeStyle.Default() == EdgeStyle.Spline
  {
  }

  /** Distinct edge styles give distinct tokens. */
  lemma EdgeStyleAsDotInjective(a: EdgeStyle, b: EdgeStyle)
    ensures a.AsDot() == b.AsDot() <==> a == b
  {
  }

  // ----- Presets -----

  /**
   * Every preset lays out left to right with spline edges in Helvetica, uses
   * the eleven-colour palette with no colour repeated, draws multi-relation
   * edges in blue and highlights ambiguities in the same red.
   */
  lemma PresetCommonFields(s: Style)
    requires IsPreset(s)
    ensures s.scheduleRankdir == RankDir.Default() && s.scheduleRankdir.AsDot() == "LR"
    ensures s.edgeStyle == EdgeStyle.Default() && s.edgeStyle.AsDot() == "spline"
    ensures s.fontname == "Helvetica"
    ensures |s.colorEdge| == 11 && DistinctColors(s.colorEdge)
    ensures s.colorEdge == Style.Light().colorEdge
    ensures s.colorSetBorder == "black"
    ensures s.multipleSetEdgeColor == "blue"
    ensures s.ambiguityColor == "#c93526"
  {
  }

  /** The presets share one palette and differ only in their theme colours, pairwise. */
  lemma PresetsDifferOnlyInThemeColors()
    ensures Style.Light().colorEdge == Style.DarkDiscord().colorEdge == Style.DarkGithub().colorEdge
    ensures SameButThemeColors(Style.Light(), Style.DarkDiscord())
    ensures SameButThemeColors(Style.Light(), Style.DarkGithub())
    ensures SameButThemeColors(Style.DarkDiscord(), Style.DarkGithub())
    ensures Style.Light().colorBackground != Style.DarkDiscord().colorBackground
    ensures Style.Light().colorBackground != Style.DarkGithub().colorBackground
    ensures Style.DarkDiscord().colorBackground != Style.DarkGithub().colorBackground
  {
  }

  /** The default theme is the dark code-hosting one. */
  lemma DefaultStyleIsDarkGithub()
    ensures Style.Default() == Style.DarkGithub()
    ensures IsPreset(Style.Default())
    ensures Style.Default().colorBackground == "#0d1117"
  {
  }
}
