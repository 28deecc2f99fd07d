/** The theme choices every generator page offers (`themes`, one literal per
    page, identical on each). A theme's `id` is the style keyword that the
    generators and the preview mockups key their tables by. */
module Themes {

  datatype Theme = Theme(id: string, name: string, description: string)

  const Themes: seq<Theme> := [
    Theme("minimal", "Minimal", "Clean and simple design"),
    Theme("elegant", "Elegant", "Sophisticated and refined"),
    Theme("bold", "Bold", "Vibrant and eye-catching"),
    Theme("playful", "Playful", "Fun and energetic")
  ]

  /** One of the four style keywords (case-sensitive exact match). */
  predicate IsKnownStyle(style: string) {
    style == "minimal" || style == "elegant" || style == "bold" || style == "playful"
  }

  /** The known style keywords are exactly the theme ids the pages offer. */
  lemma KnownStylesAreThemeIds(style: string)
    ensures IsKnownStyle(style) <==> exists i :: 0 <= i < |Themes| && Themes[i].id == style
  {
    if IsKnownStyle(style) {
      var i := if style == "minimal" then 0 else if style == "elegant" then 1 else if style == "bold" then 2 else 3;
      assert Themes[i].id == style;
    }
  }
}
