/**
 * The bar-chart skill: one column series per metric over the dimension
 * values, a title and axis texts built from the metric labels, and flags
 * that switch between the one-metric and the several-metric chart.
 */
module BasicDataBarChart {
  import opened Strings
  import opened Json
  import opened VizPreviewer
  import opened Layout
  import opened DataTableDisplay

  // --------------------------------------------------------- metric phrases

  /** The metric labels, in order. */
  function MetricNames(metrics: seq<string>): (names: seq<string>)
    ensures |names| == |metrics|
    ensures forall i :: 0 <= i < |metrics| ==> names[i] == FormatMetricName(metrics[i])
  {
    seq(|metrics|, i requires 0 <= i < |metrics| => FormatMetricName(metrics[i]))
  }

  /** "a", "a and b", "a, b and c": the list joined without an Oxford comma. */
  function AndList(names: seq<string>): string
    requires |names| >= 1
  {
    if |names| == 1 then names[0]
    else Join(", ", names[..|names| - 1]) + " and " + names[|names| - 1]
  }

  /** `title_metrics`. */
  function TitleMetrics(metrics: seq<string>): string
    requires |metrics| >= 1
  {
    AndList(MetricNames(metrics))
  }

  /** `metrics_display` of the final prompt: the same join over lower-cased labels. */
  function PromptMetrics(metrics: seq<string>): string
    requires |metrics| >= 1
  {
    AndList(LowerAll(MetricNames(metrics)))
  }

  /** The prompt's metric phrase is the title's metric phrase in lower case. */
  lemma PromptIsLowerTitle(metrics: seq<string>)
    requires |metrics| >= 1
    ensures PromptMetrics(metrics) == Lower(TitleMetrics(metrics))
  {
    var names := MetricNames(metrics);
    var n := |names|;
    if n > 1 {
      assert Lower(", ") == ", ";
      assert Lower(" and ") == " and ";
      LowerJoin(", ", names[..n - 1]);
      assert LowerAll(names)[..n - 1] == LowerAll(names[..n - 1]);
      LowerAppend(Join(", ", names[..n - 1]) + " and ", names[n - 1]);
      LowerAppend(Join(", ", names[..n - 1]), " and ");
    }
  }

  /**
   * The data table's list display and this join differ only in the Oxford
   * comma: they agree up to two items, and from three on the display is this
   * join with a comma attached to the next-to-last item.
   */
  lemma OxfordCommaOnly(names: seq<string>)
    requires |names| >= 1
    ensures |names| <= 2 ==> FormatListDisplay(names) == AndList(names)
    ensures |names| >= 3 ==> (FormatListDisplay(names)
      == AndList(names[..|names| - 2] + [names[|names| - 2] + ","] + [names[|names| - 1]]))
  {
    var n := |names|;
    if n == 2 {
      assert names[..1] == [names[0]];
    } else if n >= 3 {
      var marked := names[..n - 2] + [names[n - 2] + ","] + [names[n - 1]];
      assert marked[..n - 1] == names[..n - 2] + [names[n - 2] + ","];
      JoinSnoc(", ", names[..n - 2], names[n - 2] + ",");
      assert names[..n - 1] == names[..n - 2] + [names[n - 2]];
      JoinSnoc(", ", names[..n - 2], names[n - 2]);
    }
  }

  // ------------------------------------------------------------ formats

  const PointFormats: map<string, string> := map[
    "sales" := "{point.y:$,.0f}",
    "volume" := "{point.y:,.0f}",
    "acv" := "{point.y:,.1f}",
    "units" := "{point.y:,.0f}",
    "tdp" := "{point.y:,.1f}"]

  /** `get_metric_format`: the tooltip template for a metric. */
  function GetMetricFormat(metric: string): (r: string)
    ensures r == "{point.y:$,.0f}" || r == "{point.y:,.0f}" || r == "{point.y:,.1f}"
    ensures r == "{point.y:$,.0f}" <==> metric == "sales"
  {
    if metric in PointFormats then PointFormats[metric] else "{point.y:,.0f}"
  }

  /**
   * Every tooltip template uses the same currency prefix and number spec as
   * the metric's y-axis template, inside a `{point.y:...}` placeholder.
   */
  lemma MetricFormatShape(metric: string)
    ensures GetMetricFormat(metric) == "{point.y:" + CurrencyPrefix(metric) + NumberSpec(metric) + "}"
    ensures GetAxisFormat(metric) == CurrencyPrefix(metric) + "{value:" + NumberSpec(metric) + "}"
  {
    AxisFormatShape(metric);
    if metric == "sales" {
      assert "{point.y:" + "$" + ",.0f" + "}" == "{point.y:$,.0f}";
    } else if metric == "acv" || metric == "tdp" {
      assert "{point.y:" + "" + ",.1f" + "}" == "{point.y:,.1f}";
    } else {
      assert "{point.y:" + "" + ",.0f" + "}" == "{point.y:,.0f}";
    }
  }

  // ------------------------------------------------------------- the chart

  /** A frame `create_bar_chart` can read: the dimension column, then one column per metric. */
  predicate ChartFrame(f: Frame, metrics: seq<string>)
  {
    Rectangular(f) && |metrics| >= 1 && |f.columns| >= |metrics| + 1
  }

  /** The series of metric `i`, from column `i + 1`. */
  function SeriesEntry(f: Frame, metrics: seq<string>, i: nat): Json
    requires ChartFrame(f, metrics) && i < |metrics|
  {
    JObj([
      ("name", JStr(FormatMetricName(metrics[i]))),
      ("data", JArr(Column(f, i + 1))),
      ("colorByPoint", JBool(|metrics| == 1))])
  }

  /** `series_data`. */
  function BarSeries(f: Frame, metrics: seq<string>): (series: seq<Json>)
    requires ChartFrame(f, metrics)
    ensures |series| == |metrics|
  {
    seq(|metrics|, i requires 0 <= i < |metrics| => SeriesEntry(f, metrics, i))
  }

  /** The series loop of `create_bar_chart`. */
  method BuildSeries(f: Frame, metrics: seq<string>) returns (series: seq<Json>)
    requires ChartFrame(f, metrics)
    ensures series == BarSeries(f, metrics)
  {
    series := [];
    for i := 0 to |metrics|
      invariant |series| == i
      invariant forall j :: 0 <= j < i ==> series[j] == SeriesEntry(f, metrics, j)
    {
      var values := Column(f, i + 1);
      series := series + [JObj([
        ("name", JStr(FormatMetricName(metrics[i]))),
        ("data", JArr(values)),
        ("colorByPoint", JBool(|metrics| == 1))])];
    }
  }

  /** The chart title: row count, dimension label and metric phrase. */
  function BarTitle(f: Frame, dimension: string, metrics: seq<string>): string
    requires |metrics| >= 1
  {
    "Top " + IntToString(|f.rows|) + " " + FormatDimensionName(dimension) + " by " + TitleMetrics(metrics)
  }

  /** The Highcharts options of the bar chart, from the values `create_bar_chart` computes. */
  function BarOptionsOf(title: string, categories: seq<Json>, dimensionLabel: string, yTitle: string,
                        yFormat: string, legend: bool, single: bool, series: seq<Json>): Json
  {
    JObj([
      ("chart", JObj([("type", JStr("column")), ("height", JInt(500))])),
      ("title", JObj([("text", JStr(title))])),
      ("xAxis", JObj([
        ("categories", JArr(categories)),
        ("title", JObj([("text", JStr(dimensionLabel))]))])),
      ("yAxis", JObj([
        ("title", JObj([("text", JStr(yTitle))])),
        ("labels", JObj([("format", JStr(yFormat))]))])),
      ("tooltip", JObj([("pointFormat", JStr("<b>{point.y:,.0f}</b><br/>"))])),
      ("legend", JObj([("enabled", JBool(legend))])),
      ("plotOptions", JObj([("column", JObj([("dataLabels", JObj([
        ("enabled", JBool(single)),
        ("format", JStr("{point.y:,.0f}"))]))]))])),
      ("series", JArr(series))])
  }

  /** The y-axis title: the metric phrase for one metric, "Values" for several. */
  function YTitle(metrics: seq<string>): string
    requires |metrics| >= 1
  {
    if |metrics| == 1 then TitleMetrics(metrics) else "Values"
  }

  /** The y-axis label template: the metric's own for one metric, the `,.0f` default for several. */
  function YFormat(metrics: seq<string>): string
    requires |metrics| >= 1
  {
    if |metrics| == 1 then GetAxisFormat(metrics[0]) else "{value:,.0f}"
  }

  /** The options of the bar chart for a frame, a dimension and metrics. */
  function BarOptions(f: Frame, dimension: string, metrics: seq<string>): Json
    requires ChartFrame(f, metrics)
  {
    BarOptionsOf(
      BarTitle(f, dimension, metrics),
      Column(f, 0),
      FormatDimensionName(dimension),
      YTitle(metrics),
      YFormat(metrics),
      |metrics| > 1,
      |metrics| == 1,
      BarSeries(f, metrics))
  }

  lemma OptionsTitle(title: string, categories: seq<Json>, dimensionLabel: string, yTitle: string,
      yFormat: string, legend: bool, single: bool, series: seq<Json>)
    ensures At(BarOptionsOf(title, categories, dimensionLabel, yTitle, yFormat, legend, single, series), [Key("title"), Key("text")]) == Some(JStr(title))
  {
    var o := BarOptionsOf(title, categories, dimensionLabel, yTitle, yFormat, legend, single, series);
    GetFirst(o.members, 1);
    AtKeys2(o, "title", "text");
  }

  lemma OptionsCategories(title: string, categories: seq<Json>, dimensionLabel: string, yTitle: string,
      yFormat: string, legend: bool, single: bool, series: seq<Json>)
    ensures At(BarOptionsOf(title, categories, dimensionLabel, yTitle, yFormat, legend, single, series), [Key("xAxis"), Key("categories")]) == Some(JArr(categories))
  {
    var o := BarOptionsOf(title, categories, dimensionLabel, yTitle, yFormat, legend, single, series);
    GetFirst(o.members, 2);
    AtKeys2(o, "xAxis", "categories");
  }

  lemma OptionsXTitle(title: string, categories: seq<Json>, dimensionLabel: string, yTitle: string,
      yFormat: string, legend: bool, single: bool, series: seq<Json>)
    ensures At(BarOptionsOf(title, categories, dimensionLabel, yTitle, yFormat, legend, single, series), [Key("xAxis"), Key("title"), Key("text")]) == Some(JStr(dimensionLabel))
  {
    var o := BarOptionsOf(title, categories, dimensionLabel, yTitle, yFormat, legend, single, series);
    GetFirst(o.members, 2);
    GetFirst(o.members[2].1.members, 1);
    AtKeys3(o, "xAxis", "title", "text");
  }

  lemma OptionsYTitle(title: string, categories: seq<Json>, dimensionLabel: string, yTitle: string,
      yFormat: string, legend: bool, single: bool, series: seq<Json>)
    ensures At(BarOptionsOf(title, categories, dimensionLabel, yTitle, yFormat, legend, single, series), [Key("yAxis"), Key("title"), Key("text")]) == Some(JStr(yTitle))
  {
    var o := BarOptionsOf(title, categories, dimensionLabel, yTitle, yFormat, legend, single, series);
    GetFirst(o.members, 3);
    AtKeys3(o, "yAxis", "title", "text");
  }

  lemma OptionsYFormat(title: string, categories: seq<Json>, dimensionLabel: string, yTitle: string,
      yFormat: string, legend: bool, single: bool, series: seq<Json>)
    ensures At(BarOptionsOf(title, categories, dimensionLabel, yTitle, yFormat, legend, single, series), [Key("yAxis"), Key("labels"), Key("format")]) == Some(JStr(yFormat))
  {
    var o := BarOptionsOf(title, categories, dimensionLabel, yTitle, yFormat, legend, single, series);
    GetFirst(o.members, 3);
    GetFirst(o.members[3].1.members, 1);
    AtKeys3(o, "yAxis", "labels", "format");
  }

  lemma OptionsLegend(title: string, categories: seq<Json>, dimensionLabel: string, yTitle: string,
      yFormat: string, legend: bool, single: bool, series: seq<Json>)
    ensures At(BarOptionsOf(title, categories, dimensionLabel, yTitle, yFormat, legend, single, series), [Key("legend"), Key("enabled")]) == Some(JBool(legend))
  {
    var o := BarOptionsOf(title, categories, dimensionLabel, yTitle, yFormat, legend, single, series);
    GetFirst(o.members, 5);
    AtKeys2(o, "legend", "enabled");
  }

  lemma OptionsDataLabels(title: string, categories: seq<Json>, dimensionLabel: string, yTitle: string,
      yFormat: string, legend: bool, single: bool, series: seq<Json>)
    ensures At(BarOptionsOf(title, categories, dimensionLabel, yTitle, yFormat, legend, single, series), [Key("plotOptions"), Key("column"), Key("dataLabels"), Key("enabled")]) == Some(JBool(single))
  {
    var o := BarOptionsOf(title, categories, dimensionLabel, yTitle, yFormat, legend, single, series);
    GetFirst(o.members, 6);
    var po := o.members[6].1;
    AtKey(o, "plotOptions", [Key("column"), Key("dataLabels"), Key("enabled")]);
    AtKeys3(po, "column", "dataLabels", "enabled");
  }

  lemma OptionsSeries(title: string, categories: seq<Json>, dimensionLabel: string, yTitle: string,
      yFormat: string, legend: bool, single: bool, series: seq<Json>)
    ensures At(BarOptionsOf(title, categories, dimensionLabel, yTitle, yFormat, legend, single, series), [Key("series")]) == Some(JArr(series))
  {
    var o := BarOptionsOf(title, categories, dimensionLabel, yTitle, yFormat, legend, single, series);
    GetFirst(o.members, 7);
    AtKey(o, "series", []);
  }

  /** The layout `create_bar_chart` serialises. */
  function BarChartLayout(f: Frame, dimension: string, metrics: seq<string>): Json
    requires ChartFrame(f, metrics)
  {
    Document([MainContainer, HighchartsComponent("SalesChart", BarOptions(f, dimension, metrics))])
  }

  /** `create_bar_chart`, with `json.dumps` as `dumps`. */
  method CreateBarChart(f: Frame, dimension: string, metrics: seq<string>, dumps: Json -> string)
    returns (viz: SkillVisualization)
    requires ChartFrame(f, metrics)
    ensures viz.title == "Bar Chart"
    ensures viz.layout == dumps(BarChartLayout(f, dimension, metrics))
  {
    var series := BuildSeries(f, metrics);
    var single := |metrics| == 1;
    var titleMetrics := AndList(MetricNames(metrics));
    var options := BarOptionsOf(
      BarTitle(f, dimension, metrics),
      Column(f, 0),
      FormatDimensionName(dimension),
      if single then titleMetrics else "Values",
      if single then GetAxisFormat(metrics[0]) else "{value:,.0f}",
      |metrics| > 1,
      single,
      series);
    var chart := HighchartsComponent("SalesChart", options);
    viz := SkillVisualization("Bar Chart", dumps(Document([MainContainer, chart])));
  }

  // ------------------------------------------------------------ properties

  /** The options sit in the second child of the Document. */
  lemma BarOptionsAt(f: Frame, dimension: string, metrics: seq<string>)
    requires ChartFrame(f, metrics)
    ensures At(BarChartLayout(f, dimension, metrics), OptionsPath) == Some(BarOptions(f, dimension, metrics))
  {
    ChartOptionsAt("SalesChart", BarOptions(f, dimension, metrics));
  }

  /**
   * One series per metric, in order: series `i` is named after metric `i`,
   * holds column `i + 1`, and colours by point exactly when there is one metric.
   */
  lemma BarChartSeries(f: Frame, dimension: string, metrics: seq<string>, i: nat)
    requires ChartFrame(f, metrics) && i < |metrics|
    ensures At(BarOptions(f, dimension, metrics), [Key("series")]) == Some(JArr(BarSeries(f, metrics)))
    ensures |BarSeries(f, metrics)| == |metrics|
    ensures At(BarSeries(f, metrics)[i], [Key("name")]) == Some(JStr(FormatMetricName(metrics[i])))
    ensures At(BarSeries(f, metrics)[i], [Key("data")]) == Some(JArr(Column(f, i + 1)))
    ensures At(BarSeries(f, metrics)[i], [Key("colorByPoint")]) == Some(JBool(|metrics| == 1))
  {
    OptionsSeries(BarTitle(f, dimension, metrics), Column(f, 0), FormatDimensionName(dimension),
      YTitle(metrics), YFormat(metrics), |metrics| > 1, |metrics| == 1, BarSeries(f, metrics));
    SeriesEntryFields(f, metrics, i);
  }

  lemma SeriesEntryFields(f: Frame, metrics: seq<string>, i: nat)
    requires ChartFrame(f, metrics) && i < |metrics|
    ensures At(SeriesEntry(f, metrics, i), [Key("name")]) == Some(JStr(FormatMetricName(metrics[i])))
    ensures At(SeriesEntry(f, metrics, i), [Key("data")]) == Some(JArr(Column(f, i + 1)))
    ensures At(SeriesEntry(f, metrics, i), [Key("colorByPoint")]) == Some(JBool(|metrics| == 1))
  {
    var s := SeriesEntry(f, metrics, i);
    GetFirst(s.members, 0);
    GetFirst(s.members, 1);
    GetFirst(s.members, 2);
    AtKey(s, "name", []);
    AtKey(s, "data", []);
    AtKey(s, "colorByPoint", []);
  }

  /** The legend is on exactly with several metrics, the data labels exactly with one. */
  lemma BarChartFlags(f: Frame, dimension: string, metrics: seq<string>)
    requires ChartFrame(f, metrics)
    ensures At(BarOptions(f, dimension, metrics), [Key("legend"), Key("enabled")]) == Some(JBool(|metrics| > 1))
    ensures At(BarOptions(f, dimension, metrics), [Key("plotOptions"), Key("column"), Key("dataLabels"), Key("enabled")])
      == Some(JBool(|metrics| == 1))
  {
    OptionsLegend(BarTitle(f, dimension, metrics), Column(f, 0), FormatDimensionName(dimension),
      YTitle(metrics), YFormat(metrics), |metrics| > 1, |metrics| == 1, BarSeries(f, metrics));
    OptionsDataLabels(BarTitle(f, dimension, metrics), Column(f, 0), FormatDimensionName(dimension),
      YTitle(metrics), YFormat(metrics), |metrics| > 1, |metrics| == 1, BarSeries(f, metrics));
  }

  /**
   * The title names the row count, the dimension label and the metric
   * phrase; the x axis carries the dimension values and label.
   */
  lemma BarChartTitles(f: Frame, dimension: string, metrics: seq<string>)
    requires ChartFrame(f, metrics)
    ensures At(BarOptions(f, dimension, metrics), [Key("title"), Key("text")])
      == Some(JStr("Top " + IntToString(|f.rows|) + " " + FormatDimensionName(dimension) + " by " + TitleMetrics(metrics)))
    ensures At(BarOptions(f, dimension, metrics), [Key("xAxis"), Key("categories")]) == Some(JArr(Column(f, 0)))
    ensures At(BarOptions(f, dimension, metrics), [Key("xAxis"), Key("title"), Key("text")])
      == Some(JStr(FormatDimensionName(dimension)))
  {
    OptionsTitle(BarTitle(f, dimension, metrics), Column(f, 0), FormatDimensionName(dimension),
      YTitle(metrics), YFormat(metrics), |metrics| > 1, |metrics| == 1, BarSeries(f, metrics));
    OptionsCategories(BarTitle(f, dimension, metrics), Column(f, 0), FormatDimensionName(dimension),
      YTitle(metrics), YFormat(metrics), |metrics| > 1, |metrics| == 1, BarSeries(f, metrics));
    OptionsXTitle(BarTitle(f, dimension, metrics), Column(f, 0), FormatDimensionName(dimension),
      YTitle(metrics), YFormat(metrics), |metrics| > 1, |metrics| == 1, BarSeries(f, metrics));
  }

  /**
   * With one metric the y axis shows its label and its axis format; with
   * several it says "Values" with the `,.0f` default.
   */
  lemma BarChartYAxis(f: Frame, dimension: string, metrics: seq<string>)
    requires ChartFrame(f, metrics)
    ensures |metrics| == 1 ==> TitleMetrics(metrics) == FormatMetricName(metrics[0])
    ensures At(BarOptions(f, dimension, metrics), [Key("yAxis"), Key("title"), Key("text")])
      == Some(JStr(if |metrics| == 1 then FormatMetricName(metrics[0]) else "Values"))
    ensures At(BarOptions(f, dimension, metrics), [Key("yAxis"), Key("labels"), Key("format")])
      == Some(JStr(if |metrics| == 1 then GetAxisFormat(metrics[0]) else "{value:,.0f}"))
  {
    OptionsYTitle(BarTitle(f, dimension, metrics), Column(f, 0), FormatDimensionName(dimension),
      YTitle(metrics), YFormat(metrics), |metrics| > 1, |metrics| == 1, BarSeries(f, metrics));
    OptionsYFormat(BarTitle(f, dimension, metrics), Column(f, 0), FormatDimensionName(dimension),
      YTitle(metrics), YFormat(metrics), |metrics| > 1, |metrics| == 1, BarSeries(f, metrics));
  }

  /** The bar chart layout passes every structural check of the layout validator. */
  lemma BarChartLayoutValid(f: Frame, dimension: string, metrics: seq<string>)
    requires ChartFrame(f, metrics)
    ensures StructuralFindings(BarChartLayout(f, dimension, metrics)) == NoFindings
  {
    ChartLayoutValid("SalesChart", BarOptions(f, dimension, metrics));
  }
}
