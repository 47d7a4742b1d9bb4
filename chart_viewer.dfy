/**
 * The spec-processing body of `ChartViewer`: deep-copy the chart, fill in
 * dark-theme defaults and force some styles on the layout field by field,
 * restyle each dropdown menu in place, then hand `data` and the layout, with
 * `autosize` and a forced margin, to the renderer.
 */
module ChartViewer {
  import opened Wrappers
  import opened PlotlySpec

  /**
   * A chart layout: the keys the viewer reads or writes, each possibly
   * missing, and every other key in `rest`. `rest` never holds one of the
   * ten named keys (`paper_bgcolor`, `plot_bgcolor`, `font`, `title`,
   * `updatemenus`, `xaxis`, `yaxis`, `legend`, `autosize`, `margin`).
   */
  datatype Layout = Layout(
    paperBgcolor: Option<Json>,
    plotBgcolor: Option<Json>,
    font: Option<Json>,
    title: Option<Json>,
    updatemenus: Option<Json>,
    xaxis: Option<Json>,
    yaxis: Option<Json>,
    legend: Option<Json>,
    autosize: Option<Json>,
    margin: Option<Json>,
    rest: map<string, Json>)

  /** A chart specification: its traces, its layout and its other top-level keys. */
  datatype ChartSpec = ChartSpec(data: Option<Json>, layout: Layout, rest: map<string, Json>)

  /** `typeof v === "object"`: null, arrays and objects. */
  predicate IsObjectType(j: Json) {
    j.JNull? || j.JArr? || j.JObj?
  }

  /** `v || {}`. */
  function OrEmpty(j: Option<Json>): (r: Option<Json>)
    ensures r.Some? && (TruthyOpt(j) ==> r == j) && (!TruthyOpt(j) ==> r == Some(JObj(map[])))
  {
    Some(Or(j, JObj(map[])))
  }

  // ----- the new value of each key the viewer writes -----

  /** `{ ...font, color: "#e4e4e7" }` unless `font?.color` is truthy. */
  function FontStep(font: Option<Json>): (r: Option<Json>)
    requires Spreadable(font)
    ensures TruthyOpt(Member(font, "color")) ==> r == font
    ensures !TruthyOpt(Member(font, "color")) ==> r == Some(JObj(Spread(font)["color" := LightText]))
  {
    if TruthyOpt(Member(font, "color")) then font else Some(JObj(Spread(font)["color" := LightText]))
  }

  /**
   * What the title rule needs: an array title, or an object title whose
   * `font` is a non-empty string, would be spread element by element.
   */
  predicate TitleReady(t: Option<Json>) {
    t.Some? ==> !t.value.JArr? && (t.value.JObj? ==> Spreadable(OrEmpty(Member(t, "font"))))
  }

  /** A truthy non-object title becomes `{ text, font: { size: 16, color }, x: 0.07 }`. */
  function TextTitle(t: Json): map<string, Json> {
    map["text" := t, "font" := JObj(TitleFont), "x" := JNum(0.07)]
  }

  /** `{ ...(font || {}), size: font?.size || 16, color: font?.color || "#e4e4e7" }`. */
  function TitleFontFilled(font: Option<Json>): (f: map<string, Json>)
    requires Spreadable(OrEmpty(font))
    ensures "size" in f && "color" in f && Truthy(f["size"]) && Truthy(f["color"])
    ensures forall k :: k != "size" && k != "color" ==> Get(f, k) == Get(Spread(OrEmpty(font)), k)
    ensures TruthyOpt(Member(font, "size")) ==> f["size"] == Member(font, "size").value
    ensures !TruthyOpt(Member(font, "size")) ==> f["size"] == JNum(16.0)
    ensures TruthyOpt(Member(font, "color")) ==> f["color"] == Member(font, "color").value
    ensures !TruthyOpt(Member(font, "color")) ==> f["color"] == LightText
  {
    Spread(OrEmpty(font))["size" := Or(Member(font, "size"), JNum(16.0))]["color" := Or(Member(font, "color"), LightText)]
  }

  /** An object title keeps its fields; its font and `x` are filled in where falsy. */
  function ObjectTitle(t: Json): (m: map<string, Json>)
    requires t.JObj? && Spreadable(OrEmpty(Member(Some(t), "font")))
    ensures "x" in m && Truthy(m["x"])
    ensures forall k :: k != "font" && k != "x" ==> Get(m, k) == Get(t.fields, k)
    ensures Get(m, "font") == Some(JObj(TitleFontFilled(Member(Some(t), "font"))))
    ensures TruthyAt(t.fields, "x") ==> m["x"] == t.fields["x"]
    ensures !TruthyAt(t.fields, "x") ==> m["x"] == JNum(0.07)
  {
    t.fields["font" := JObj(TitleFontFilled(Member(Some(t), "font")))]["x" := Or(Member(Some(t), "x"), JNum(0.07))]
  }

  /** The title after the title step: wrapped, filled in, or (when falsy) left alone. */
  function TitleStep(t: Option<Json>): Option<Json>
    requires TitleReady(t)
  {
    if !TruthyOpt(t) then t
    else if !IsObjectType(t.value) then Some(JObj(TextTitle(t.value)))
    else Some(JObj(ObjectTitle(t.value)))
  }

  /** `updatemenus.forEach` needs an array, and assigning to a menu needs an object. */
  predicate MenusReady(m: Option<Json>) {
    TruthyOpt(m) ==> m.value.JArr? && forall i :: 0 <= i < |m.value.items| ==> m.value.items[i].JObj?
  }

  /** A menu without a truthy `bgcolor` gets background, border and font; any other menu is untouched. */
  function StyledMenu(menu: Json): (r: Json)
    requires menu.JObj?
    ensures r.JObj? && TruthyAt(r.fields, "bgcolor")
    ensures TruthyAt(menu.fields, "bgcolor") ==> r == menu
    ensures !TruthyAt(menu.fields, "bgcolor") ==>
              Get(r.fields, "bgcolor") == Some(MenuBackground) && Get(r.fields, "bordercolor") == Some(GridGrey) &&
              Get(r.fields, "font") == Some(JObj(TextColorOnly)) &&
              forall k :: k != "bgcolor" && k != "bordercolor" && k != "font" ==> Get(r.fields, k) == Get(menu.fields, k)
  {
    if TruthyAt(menu.fields, "bgcolor") then menu
    else JObj(menu.fields["bgcolor" := MenuBackground]["bordercolor" := GridGrey]["font" := JObj(TextColorOnly)])
  }

  function StyledMenus(items: seq<Json>): (r: seq<Json>)
    requires forall i :: 0 <= i < |items| ==> items[i].JObj?
    ensures |r| == |items|
    ensures forall i :: 0 <= i < |r| ==> r[i] == StyledMenu(items[i])
  {
    seq(|items|, i requires 0 <= i < |items| => StyledMenu(items[i]))
  }

  function MenusStep(m: Option<Json>): Option<Json>
    requires MenusReady(m)
  {
    if TruthyOpt(m) then Some(JArr(StyledMenus(m.value.items))) else m
  }

  /** A present axis and its title are spread. */
  predicate AxisReady(a: Option<Json>) {
    TruthyOpt(a) ==> Spreadable(a) && Spreadable(Member(a, "title"))
  }

  /** Grid and line colours forced, `tickfont` replaced, the title font replaced and the other title fields kept. */
  function StyledAxis(ax: Json): (a: map<string, Json>)
    requires Spreadable(Some(ax)) && Spreadable(Member(Some(ax), "title"))
    ensures Get(a, "gridcolor") == Some(GridGrey) && Get(a, "linecolor") == Some(GridGrey)
    ensures Get(a, "tickfont") == Some(JObj(TextColorOnly))
    ensures "title" in a && a["title"].JObj? && Get(a["title"].fields, "font") == Some(JObj(TextColorOnly))
    ensures forall k :: k != "font" ==> Get(a["title"].fields, k) == Get(Spread(Member(Some(ax), "title")), k)
    ensures forall k :: k != "gridcolor" && k != "linecolor" && k != "tickfont" && k != "title" ==>
              Get(a, k) == Get(Spread(Some(ax)), k)
  {
    Spread(Some(ax))
      ["gridcolor" := GridGrey]
      ["linecolor" := GridGrey]
      ["tickfont" := JObj(TextColorOnly)]
      ["title" := JObj(Spread(Member(Some(ax), "title"))["font" := JObj(TextColorOnly)])]
  }

  function AxisStep(a: Option<Json>): Option<Json>
    requires AxisReady(a)
  {
    if TruthyOpt(a) then Some(JObj(StyledAxis(a.value))) else a
  }

  predicate LegendReady(g: Option<Json>) {
    TruthyOpt(g) ==> Spreadable(g)
  }

  /** Font, background and border forced, every other legend key kept. */
  function StyledLegend(g: Json): (lg: map<string, Json>)
    requires Spreadable(Some(g))
    ensures Get(lg, "font") == Some(JObj(TextColorOnly))
    ensures Get(lg, "bgcolor") == Some(DarkBackground) && Get(lg, "bordercolor") == Some(GridGrey)
    ensures forall k :: k != "font" && k != "bgcolor" && k != "bordercolor" ==> Get(lg, k) == Get(Spread(Some(g)), k)
  {
    Spread(Some(g))["font" := JObj(TextColorOnly)]["bgcolor" := DarkBackground]["bordercolor" := GridGrey]
  }

  function LegendStep(g: Option<Json>): Option<Json>
    requires LegendReady(g)
  {
    if TruthyOpt(g) then Some(JObj(StyledLegend(g.value))) else g
  }

  /** `{ ...(margin || {}), t: 40, r: 20, l: 40, b: 40 }`. */
  function ForcedMargin(margin: Option<Json>): (m: map<string, Json>)
    requires Spreadable(OrEmpty(margin))
    ensures Get(m, "t") == Some(JNum(40.0)) && Get(m, "r") == Some(JNum(20.0))
    ensures Get(m, "l") == Some(JNum(40.0)) && Get(m, "b") == Some(JNum(40.0))
    ensures forall k :: k != "t" && k != "r" && k != "l" && k != "b" ==> Get(m, k) == Get(Spread(OrEmpty(margin)), k)
  {
    Spread(OrEmpty(margin))["t" := JNum(40.0)]["r" := JNum(20.0)]["l" := JNum(40.0)]["b" := JNum(40.0)]
  }

  // ----- the whole processing as a function of the layout -----

  /** Everything the processing reads without throwing a TypeError or spreading a string or an array. */
  predicate LayoutReady(l: Layout) {
    && Spreadable(l.font)
    && TitleReady(l.title)
    && MenusReady(l.updatemenus)
    && AxisReady(l.xaxis)
    && AxisReady(l.yaxis)
    && LegendReady(l.legend)
    && Spreadable(OrEmpty(l.margin))
  }

  /** `processedData.layout` after the legend step: each written key is a function of its own prior value. */
  function ProcessLayout(l: Layout): Layout
    requires LayoutReady(l)
  {
    var background := !TruthyOpt(l.paperBgcolor);
    l.(paperBgcolor := if background then Some(DarkBackground) else l.paperBgcolor,
       plotBgcolor := if background then Some(DarkBackground) else l.plotBgcolor,
       font := FontStep(l.font),
       title := TitleStep(l.title),
       updatemenus := MenusStep(l.updatemenus),
       xaxis := AxisStep(l.xaxis),
       yaxis := AxisStep(l.yaxis),
       legend := LegendStep(l.legend))
  }

  /** What reaches `<Plot>`: the traces and the layout prop. */
  datatype RenderProps = RenderProps(data: Option<Json>, layout: Layout)

  /**
   * The props rendered for a chart: the processed layout with `autosize`
   * set and the margin forced. The deep copy is the identity on JSON
   * values, so it does not appear: the caller's value is never changed.
   */
  function Render(chart: ChartSpec): (r: RenderProps)
    requires LayoutReady(chart.layout)
    ensures r.data == chart.data
    ensures r.layout.rest == chart.layout.rest
  {
    var p := ProcessLayout(chart.layout);
    RenderProps(chart.data, p.(autosize := Some(JBool(true)), margin := Some(JObj(ForcedMargin(p.margin)))))
  }

  // ----- the viewer body, step by step -----

  /** `updatemenus.forEach(menu => ...)`: each menu object is restyled in place. */
  method StyleMenuArray(menus: array<Json>)
    requires forall i :: 0 <= i < menus.Length ==> menus[i].JObj?
    modifies menus
    ensures menus[..] == StyledMenus(old(menus[..]))
  {
    var i := 0;
    while i < menus.Length
      invariant 0 <= i <= menus.Length
      invariant forall j :: 0 <= j < i ==> menus[j] == StyledMenu(old(menus[j]))
      invariant forall j :: i <= j < menus.Length ==> menus[j] == old(menus[j])
    {
      var menu := menus[i];
      if !TruthyAt(menu.fields, "bgcolor") {
        menu := JObj(menu.fields["bgcolor" := MenuBackground]);
        menu := JObj(menu.fields["bordercolor" := GridGrey]);
        menu := JObj(menu.fields["font" := JObj(TextColorOnly)]);
      }
      menus[i] := menu;
      i := i + 1;
    }
  }

  /** `processedData`: the deep copy the viewer assigns into, field by field. */
  class ProcessedChart {
    var data: Option<Json>
    var layout: Layout

    /** `JSON.parse(JSON.stringify(chartData))`: a JSON value is its own deep copy. */
    constructor (chart: ChartSpec)
      ensures data == chart.data && layout == chart.layout
    {
      data := chart.data;
      layout := chart.layout;
    }

    method FillBackground()
      modifies this
      ensures data == old(data)
      ensures layout == if TruthyOpt(old(layout).paperBgcolor) then old(layout)
                        else old(layout).(paperBgcolor := Some(DarkBackground), plotBgcolor := Some(DarkBackground))
    {
      if !TruthyOpt(layout.paperBgcolor) {
        layout := layout.(paperBgcolor := Some(DarkBackground));
        layout := layout.(plotBgcolor := Some(DarkBackground));
      }
    }

    method FillFontColor()
      requires Spreadable(layout.font)
      modifies this
      ensures data == old(data) && layout == old(layout).(font := FontStep(old(layout).font))
    {
      if !TruthyOpt(Member(layout.font, "color")) {
        layout := layout.(font := Some(JObj(Spread(layout.font)["color" := LightText])));
      }
    }

    method StyleTitle()
      requires TitleReady(layout.title)
      modifies this
      ensures data == old(data) && layout == old(layout).(title := TitleStep(old(layout).title))
    {
      if TruthyOpt(layout.title) && !IsObjectType(layout.title.value) {
        layout := layout.(title := Some(JObj(TextTitle(layout.title.value))));
      } else if TruthyOpt(layout.title) {
        layout := layout.(title := Some(JObj(ObjectTitle(layout.title.value))));
      }
    }

    method StyleMenus()
      requires MenusReady(layout.updatemenus)
      modifies this
      ensures data == old(data) && layout == old(layout).(updatemenus := MenusStep(old(layout).updatemenus))
    {
      if TruthyOpt(layout.updatemenus) {
        var items := layout.updatemenus.value.items;
        var menus := new Json[|items|](i requires 0 <= i < |items| => items[i]);
        assert menus[..] == items;
        StyleMenuArray(menus);
        layout := layout.(updatemenus := Some(JArr(menus[..])));
      }
    }

    method StyleXAxis()
      requires AxisReady(layout.xaxis)
      modifies this
      ensures data == old(data) && layout == old(layout).(xaxis := AxisStep(old(layout).xaxis))
    {
      if TruthyOpt(layout.xaxis) {
        layout := layout.(xaxis := Some(JObj(StyledAxis(layout.xaxis.value))));
      }
    }

    method StyleYAxis()
      requires AxisReady(layout.yaxis)
      modifies this
      ensures data == old(data) && layout == old(layout).(yaxis := AxisStep(old(layout).yaxis))
    {
      if TruthyOpt(layout.yaxis) {
        layout := layout.(yaxis := Some(JObj(StyledAxis(layout.yaxis.value))));
      }
    }

    method StyleLegend()
      requires LegendReady(layout.legend)
      modifies this
      ensures data == old(data) && layout == old(layout).(legend := LegendStep(old(layout).legend))
    {
      if TruthyOpt(layout.legend) {
        layout := layout.(legend := Some(JObj(StyledLegend(layout.legend.value))));
      }
    }
  }

  /** The whole viewer body: the props handed to `<Plot>` are `Render(chart)`. */
  method ProcessChart(chart: ChartSpec) returns (props: RenderProps)
    requires LayoutReady(chart.layout)
    ensures props == Render(chart)
  {
    var processed := new ProcessedChart(chart);
    processed.FillBackground();
    processed.FillFontColor();
    processed.StyleTitle();
    processed.StyleMenus();
    processed.StyleXAxis();
    processed.StyleYAxis();
    processed.StyleLegend();
    var layout := processed.layout;
    props := RenderProps(processed.data,
                         layout.(autosize := Some(JBool(true)), margin := Some(JObj(ForcedMargin(layout.margin)))));
  }

  // ----- what the processing promises -----

  /** Both backgrounds are set when `paper_bgcolor` is missing or falsy; otherwise neither is touched. */
  lemma BackgroundDefaulted(chart: ChartSpec)
    requires LayoutReady(chart.layout)
    ensures var l, r := chart.layout, Render(chart).layout;
            if TruthyOpt(l.paperBgcolor) then r.paperBgcolor == l.paperBgcolor && r.plotBgcolor == l.plotBgcolor
            else r.paperBgcolor == Some(DarkBackground) && r.plotBgcolor == Some(DarkBackground)
  {
  }

  /** An existing font colour keeps the whole font; a missing one is filled in and the other font fields stay. */
  lemma FontColorDefaulted(chart: ChartSpec)
    requires LayoutReady(chart.layout)
    ensures var font, r := chart.layout.font, Render(chart).layout;
            if TruthyOpt(Member(font, "color")) then r.font == font
            else
              r.font.Some? && r.font.value.JObj? && Get(r.font.value.fields, "color") == Some(LightText) &&
              forall k :: k != "color" ==> Get(r.font.value.fields, k) == Get(Spread(font), k)
  {
  }

  /** A truthy string, number or `true` title is wrapped with the default font and `x`. */
  lemma TextTitleWrapped(chart: ChartSpec)
    requires LayoutReady(chart.layout)
    requires TruthyOpt(chart.layout.title) && !IsObjectType(chart.layout.title.value)
    ensures Render(chart).layout.title ==
            Some(JObj(map["text" := chart.layout.title.value, "font" := JObj(TitleFont), "x" := JNum(0.07)]))
  {
  }

  /**
   * An object title keeps every field but `font` and `x`; its font keeps
   * every field but `size` and `color`, which, like `x`, are replaced only
   * when falsy.
   */
  lemma ObjectTitleFilled(chart: ChartSpec)
    requires LayoutReady(chart.layout)
    requires TruthyOpt(chart.layout.title) && chart.layout.title.value.JObj?
    ensures var t, r := chart.layout.title.value, Render(chart).layout;
            && r.title.Some? && r.title.value.JObj?
            && (forall k :: k != "font" && k != "x" ==> Get(r.title.value.fields, k) == Get(t.fields, k))
            && Get(r.title.value.fields, "font") == Some(JObj(TitleFontFilled(Member(Some(t), "font"))))
            && Get(r.title.value.fields, "x") == Some(Or(Get(t.fields, "x"), JNum(0.07)))
  {
  }

  /** `||` reads an `x` of 0 as missing, so such a title moves to 0.07. */
  lemma ZeroTitleXReplaced(chart: ChartSpec)
    requires LayoutReady(chart.layout)
    requires TruthyOpt(chart.layout.title) && chart.layout.title.value.JObj?
    requires Get(chart.layout.title.value.fields, "x") == Some(JNum(0.0))
    ensures Render(chart).layout.title.Some? && Render(chart).layout.title.value.JObj?
    ensures Get(Render(chart).layout.title.value.fields, "x") == Some(JNum(0.07))
  {
    ObjectTitleFilled(chart);
  }

  /** A falsy title (missing, null, "", 0 or false) is left as it is. */
  lemma FalsyTitleKept(chart: ChartSpec)
    requires LayoutReady(chart.layout) && !TruthyOpt(chart.layout.title)
    ensures Render(chart).layout.title == chart.layout.title
  {
  }

  /** The menu count is unchanged, menus with a background are untouched and the others are styled. */
  lemma MenusStyled(chart: ChartSpec)
    requires LayoutReady(chart.layout) && TruthyOpt(chart.layout.updatemenus)
    ensures var items, r := chart.layout.updatemenus.value.items, Render(chart).layout;
            && r.updatemenus.Some? && r.updatemenus.value.JArr?
            && |r.updatemenus.value.items| == |items|
            && forall i :: 0 <= i < |items| ==> r.updatemenus.value.items[i] == StyledMenu(items[i])
  {
  }

  /** Absent or falsy axes and legend stay as they were; present ones are restyled. */
  lemma AxesAndLegendStyled(chart: ChartSpec)
    requires LayoutReady(chart.layout)
    ensures var l, r := chart.layout, Render(chart).layout;
            && (if TruthyOpt(l.xaxis) then r.xaxis == Some(JObj(StyledAxis(l.xaxis.value))) else r.xaxis == l.xaxis)
            && (if TruthyOpt(l.yaxis) then r.yaxis == Some(JObj(StyledAxis(l.yaxis.value))) else r.yaxis == l.yaxis)
            && (if TruthyOpt(l.legend) then r.legend == Some(JObj(StyledLegend(l.legend.value))) else r.legend == l.legend)
  {
  }

  /** `autosize` is set and the margin's four sides are forced; other margin keys are kept. */
  lemma MarginForced(chart: ChartSpec)
    requires LayoutReady(chart.layout)
    ensures Render(chart).layout.autosize == Some(JBool(true))
    ensures Render(chart).layout.margin == Some(JObj(ForcedMargin(chart.layout.margin)))
  {
  }

  // ----- idempotence -----

  lemma UpdateSame(m: map<string, Json>, k: string)
    requires k in m
    ensures m[k := m[k]] == m
  {
  }

  /** A filled-in title font is filled in already. */
  lemma TitleFontFilledIdempotent(font: Option<Json>)
    requires Spreadable(OrEmpty(font))
    ensures TitleFontFilled(Some(JObj(TitleFontFilled(font)))) == TitleFontFilled(font)
  {
    var f := TitleFontFilled(font);
    UpdateSame(f, "size");
    UpdateSame(f, "color");
  }

  lemma ObjectTitleIdempotent(t: Json)
    requires t.JObj? && Spreadable(OrEmpty(Member(Some(t), "font")))
    ensures ObjectTitle(JObj(ObjectTitle(t))) == ObjectTitle(t)
  {
    var m := ObjectTitle(t);
    TitleFontFilledIdempotent(Member(Some(t), "font"));
    UpdateSame(m, "font");
    UpdateSame(m, "x");
  }

  lemma TitleStepIdempotent(t: Option<Json>)
    requires TitleReady(t)
    ensures TitleReady(TitleStep(t)) && TitleStep(TitleStep(t)) == TitleStep(t)
  {
    if TruthyOpt(t) && !IsObjectType(t.value) {
      var m := TextTitle(t.value);
      assert TitleFontFilled(Some(JObj(TitleFont))) == TitleFont;
      assert ObjectTitle(JObj(m)) == m;
    } else if TruthyOpt(t) {
      ObjectTitleIdempotent(t.value);
    }
  }

  lemma MenusStepIdempotent(m: Option<Json>)
    requires MenusReady(m)
    ensures MenusReady(MenusStep(m)) && MenusStep(MenusStep(m)) == MenusStep(m)
  {
    if TruthyOpt(m) {
      var styled := StyledMenus(m.value.items);
      assert StyledMenus(styled) == styled;
    }
  }

  lemma AxisStepIdempotent(a: Option<Json>)
    requires AxisReady(a)
    ensures AxisReady(AxisStep(a)) && AxisStep(AxisStep(a)) == AxisStep(a)
  {
    if TruthyOpt(a) {
      var s := StyledAxis(a.value);
      var t := s["title"].fields;
      UpdateSame(t, "font");
      UpdateSame(s, "gridcolor");
      UpdateSame(s, "linecolor");
      UpdateSame(s, "tickfont");
      UpdateSame(s, "title");
      assert StyledAxis(JObj(s)) == s;
    }
  }

  lemma LegendStepIdempotent(g: Option<Json>)
    requires LegendReady(g)
    ensures LegendReady(LegendStep(g)) && LegendStep(LegendStep(g)) == LegendStep(g)
  {
    if TruthyOpt(g) {
      var s := StyledLegend(g.value);
      UpdateSame(s, "font");
      UpdateSame(s, "bgcolor");
      UpdateSame(s, "bordercolor");
      assert StyledLegend(JObj(s)) == s;
    }
  }

  lemma ForcedMarginIdempotent(margin: Option<Json>)
    requires Spreadable(OrEmpty(margin))
    ensures ForcedMargin(Some(JObj(ForcedMargin(margin)))) == ForcedMargin(margin)
  {
    var m := ForcedMargin(margin);
    UpdateSame(m, "t");
    UpdateSame(m, "r");
    UpdateSame(m, "l");
    UpdateSame(m, "b");
  }

  /** The chart the viewer would see if its own output were handed back to it. */
  function Reprocessed(chart: ChartSpec): ChartSpec
    requires LayoutReady(chart.layout)
  {
    ChartSpec(chart.data, Render(chart).layout, chart.rest)
  }

  /** Processing the rendered props again changes nothing. */
  lemma ProcessChartIdempotent(chart: ChartSpec)
    requires LayoutReady(chart.layout)
    ensures LayoutReady(Reprocessed(chart).layout)
    ensures Render(Reprocessed(chart)) == Render(chart)
  {
    var l := chart.layout;
    TitleStepIdempotent(l.title);
    MenusStepIdempotent(l.updatemenus);
    AxisStepIdempotent(l.xaxis);
    AxisStepIdempotent(l.yaxis);
    LegendStepIdempotent(l.legend);
    ForcedMarginIdempotent(ProcessLayout(l).margin);
  }

  // ----- the temporal-engagement chart embedded in the anatomy tab -----

  const AxisDomain: Json := JArr([JNum(0.0), JNum(1.0)])
  const EmptyAxisTitle: Json := JObj(map["text" := JStr("")])
  const EngagementTitleFont: map<string, Json> := map["color" := LightText, "size" := JNum(16.0)]
  const EngagementTitleText: Json := JStr("Reader Engagement by Narrative Dynamics")

  /** The embedded layout; `coloraxis` and `barmode` are keys the viewer does not touch. */
  function EngagementLayout(): Layout {
    Layout(
      Some(DarkBackground),
      Some(DarkBackground),
      Some(JObj(map["size" := JNum(13.0), "color" := LightText])),
      Some(JObj(EngagementTitleFields)),
      None,
      Some(JObj(map["anchor" := JStr("y"), "domain" := AxisDomain, "title" := EmptyAxisTitle,
                    "showticklabels" := JBool(true), "tickfont" := JObj(TextColorOnly)])),
      Some(JObj(map["anchor" := JStr("x"), "domain" := AxisDomain, "title" := EmptyAxisTitle,
                    "showticklabels" := JBool(false), "showgrid" := JBool(false)])),
      Some(JObj(map["tracegroupgap" := JNum(0.0)])),
      None,
      Some(JObj(map["t" := JNum(60.0)])),
      map["coloraxis" := JObj(map[
             "colorbar" := JObj(map["title" := JObj(map["text" := JStr("Avg. Rating Count")])]),
             "colorscale" := JArr([JArr([JNum(0.0), JStr("#dcd7fa")]), JArr([JNum(0.5), JStr("#b29ef2")]),
                                   JArr([JNum(1.0), JStr("#8b5cf6")])]),
             "showscale" := JBool(false)]),
          "barmode" := JStr("relative")])
  }

  /**
   * A layout that already has a background, a font colour, and a title font
   * with size and colour keeps all three; only the title's `x` is filled in,
   * and a margin holding just `t` ends up with the four forced sides.
   */
  lemma StyledLayoutKept(l: Layout, titleFields: map<string, Json>, font: map<string, Json>, top: Json)
    requires LayoutReady(l) && TruthyOpt(l.paperBgcolor) && TruthyOpt(Member(l.font, "color"))
    requires l.title == Some(JObj(titleFields)) && Get(titleFields, "font") == Some(JObj(font))
    requires TruthyAt(font, "size") && TruthyAt(font, "color")
    requires l.margin == Some(JObj(map["t" := top]))
    ensures var r := Render(ChartSpec(None, l, map[])).layout;
            && r.margin == Some(JObj(map["t" := JNum(40.0), "r" := JNum(20.0), "l" := JNum(40.0), "b" := JNum(40.0)]))
            && r.paperBgcolor == l.paperBgcolor && r.plotBgcolor == l.plotBgcolor && r.font == l.font
            && r.title == Some(JObj(titleFields["x" := Or(Get(titleFields, "x"), JNum(0.07))]))
  {
    UpdateSame(font, "size");
    UpdateSame(font, "color");
    assert TitleFontFilled(Some(JObj(font))) == font;
    UpdateSame(titleFields, "font");
    assert ForcedMargin(l.margin) == map["t" := JNum(40.0), "r" := JNum(20.0), "l" := JNum(40.0), "b" := JNum(40.0)];
  }

  /** Traces never influence the layout. */
  lemma LayoutIgnoresTraces(chart: ChartSpec)
    requires LayoutReady(chart.layout)
    ensures Render(chart).layout == Render(ChartSpec(None, chart.layout, map[])).layout
  {
  }

  lemma EngagementLayoutReady()
    ensures LayoutReady(EngagementLayout())
  {
    var l := EngagementLayout();
    assert Spreadable(l.font);
    assert TitleReady(l.title);
    assert MenusReady(l.updatemenus);
    assert AxisReady(l.xaxis);
    assert AxisReady(l.yaxis);
    assert LegendReady(l.legend);
    assert Spreadable(OrEmpty(l.margin));
  }

  /**
   * On the embedded chart the top margin of 60 becomes 40, the existing
   * backgrounds, font and title font survive, and the title gains `x: 0.07`.
   */
  lemma EngagementChartRendered(traces: Option<Json>)
    ensures LayoutReady(EngagementLayout())
    ensures var r := Render(ChartSpec(traces, EngagementLayout(), map[])).layout;
            && r.margin == Some(JObj(map["t" := JNum(40.0), "r" := JNum(20.0), "l" := JNum(40.0), "b" := JNum(40.0)]))
            && r.paperBgcolor == Some(DarkBackground) && r.plotBgcolor == Some(DarkBackground)
            && r.font == EngagementLayout().font
            && r.title == Some(JObj(map["text" := EngagementTitleText, "font" := JObj(EngagementTitleFont),
                                        "x" := JNum(0.07)]))
  {
    var l := EngagementLayout();
    EngagementLayoutReady();
    EngagementLayoutStyled();
    LayoutIgnoresTraces(ChartSpec(traces, l, map[]));
    StyledLayoutKept(l, EngagementTitleFields, EngagementTitleFont, JNum(60.0));
    assert EngagementTitleFields["x" := Or(Get(EngagementTitleFields, "x"), JNum(0.07))] ==
           map["text" := EngagementTitleText, "font" := JObj(EngagementTitleFont), "x" := JNum(0.07)];
  }

  const EngagementTitleFields: map<string, Json> := map["text" := EngagementTitleText, "font" := JObj(EngagementTitleFont)]

  /** The embedded layout already carries a background, a font colour and a sized, coloured title font. */
  lemma EngagementLayoutStyled()
    ensures var l := EngagementLayout();
            && TruthyOpt(l.paperBgcolor) && TruthyOpt(Member(l.font, "color"))
            && l.title == Some(JObj(EngagementTitleFields))
            && Get(EngagementTitleFields, "font") == Some(JObj(EngagementTitleFont))
            && TruthyAt(EngagementTitleFont, "size") && TruthyAt(EngagementTitleFont, "color")
            && l.margin == Some(JObj(map["t" := JNum(60.0)]))
  {
  }
}
