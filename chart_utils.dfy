/**
 * `applyDarkTheme`: a single object-spread expression that forces the dark
 * backgrounds, replaces the layout font and restyles the title font, leaving
 * everything else in the chart specification as it was.
 */
module ChartUtils {
  import opened Wrappers
  import opened PlotlySpec

  /** The layout keys the theme writes. */
  const ThemedKeys: set<string> := {"paper_bgcolor", "plot_bgcolor", "font", "title"}

  /**
   * What the expression needs to run: `chartData.layout.title` must not
   * throw, so `chartData` is an object with a non-null `layout`; the layout
   * and its title are spread, so neither is a string or an array.
   */
  predicate Themeable(chart: Json) {
    && chart.JObj? && "layout" in chart.fields && chart.fields["layout"] != JNull
    && Spreadable(Some(chart.fields["layout"]))
    && Spreadable(Member(Some(chart.fields["layout"]), "title"))
  }

  /** `{ ...layout.title, font: { size: 16, color: "#e4e4e7" } }`. */
  function DarkTitle(title: Option<Json>): (t: map<string, Json>)
    requires Spreadable(title)
    ensures t.Keys == Spread(title).Keys + {"font"}
    ensures t["font"] == JObj(TitleFont)
    ensures forall k :: k in Spread(title) && k != "font" ==> t[k] == Spread(title)[k]
  {
    Spread(title)["font" := JObj(TitleFont)]
  }

  /** The new layout: backgrounds, font and title replaced, all other keys kept. */
  function DarkLayout(layout: Json): (l: map<string, Json>)
    requires layout != JNull && Spreadable(Some(layout)) && Spreadable(Member(Some(layout), "title"))
    ensures l.Keys == Spread(Some(layout)).Keys + ThemedKeys
    ensures l["paper_bgcolor"] == DarkBackground && l["plot_bgcolor"] == DarkBackground
    ensures l["font"] == JObj(TextColorOnly)
    ensures l["title"] == JObj(DarkTitle(Member(Some(layout), "title")))
    ensures forall k :: k in Spread(Some(layout)) && k !in ThemedKeys ==> l[k] == Spread(Some(layout))[k]
  {
    Spread(Some(layout))
      ["paper_bgcolor" := DarkBackground]
      ["plot_bgcolor" := DarkBackground]
      ["font" := JObj(TextColorOnly)]
      ["title" := JObj(DarkTitle(Member(Some(layout), "title")))]
  }

  /** `applyDarkTheme(chartData)`: every top-level field but `layout` is copied unchanged. */
  function ApplyDarkTheme(chart: Json): (r: Json)
    requires Themeable(chart)
    ensures r.JObj? && r.fields.Keys == chart.fields.Keys
    ensures forall k :: k in chart.fields && k != "layout" ==> r.fields[k] == chart.fields[k]
    ensures r.fields["layout"] == JObj(DarkLayout(chart.fields["layout"]))
  {
    JObj(chart.fields["layout" := JObj(DarkLayout(chart.fields["layout"]))])
  }

  /** A prior font size is dropped: the layout font holds only the text colour. */
  lemma FontReplacedWholesale(chart: Json)
    requires Themeable(chart)
    ensures ApplyDarkTheme(chart).fields["layout"].fields["font"].fields.Keys == {"color"}
  {
  }

  /** A chart without a title gets a title object that holds only the font. */
  lemma MissingTitleGetsFontOnly(chart: Json)
    requires Themeable(chart) && Member(Some(chart.fields["layout"]), "title").None?
    ensures ApplyDarkTheme(chart).fields["layout"].fields["title"] == JObj(map["font" := JObj(TitleFont)])
  {
  }

  /** The themed chart is again themeable, and theming it a second time changes nothing. */
  lemma ApplyDarkThemeIdempotent(chart: Json)
    requires Themeable(chart)
    ensures Themeable(ApplyDarkTheme(chart))
    ensures ApplyDarkTheme(ApplyDarkTheme(chart)) == ApplyDarkTheme(chart)
  {
    var r := ApplyDarkTheme(chart);
    var l := DarkLayout(chart.fields["layout"]);
    var t := DarkTitle(Member(Some(chart.fields["layout"]), "title"));
    assert r.fields["layout"] == JObj(l);
    assert Member(Some(JObj(l)), "title") == Some(JObj(t));
    assert DarkTitle(Some(JObj(t))) == t;
    assert DarkLayout(JObj(l)) == l;
    assert r.fields["layout" := JObj(l)] == r.fields;
  }
}
