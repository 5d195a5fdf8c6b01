/**
 * The time-series skill: the SQL expression for the requested period, and
 * `create_line_chart`, which draws one line per dimension-value column of a
 * pivoted frame whose first column is the time period.
 */
module TimeSeriesLineChart {
  import opened Strings
  import opened Json
  import opened VizPreviewer
  import opened Layout

  // ------------------------------------------------------------ lookups

  /** This file's dimension labels: the shared table without `max_time_month`. */
  const LineDimensionLabels: map<string, string> := map[
    "segment" := "Segment",
    "brand" := "Brand",
    "manufacturer" := "Manufacturer",
    "state_name" := "State",
    "sub_category" := "Sub-Category"]

  /** This file's `format_dimension_name`. */
  function LineDimensionName(dimension: string): (r: string)
    ensures r == "" <==> dimension == ""
    ensures dimension !in LineDimensionLabels ==> |r| == |dimension|
  {
    if dimension in LineDimensionLabels then LineDimensionLabels[dimension] else Title(dimension)
  }

  /**
   * The line chart labels dimensions like the other skills except
   * `max_time_month`, which it title-cases instead of calling "Month".
   */
  lemma LineDimensionNameDiffers(dimension: string)
    ensures dimension != "max_time_month" ==> LineDimensionName(dimension) == FormatDimensionName(dimension)
    ensures LineDimensionName("max_time_month") == "Max_Time_Month"
    ensures FormatDimensionName("max_time_month") == "Month"
  {
    assert "max_time_month" !in LineDimensionLabels;
    var t := Title("max_time_month");
    assert t[0] == 'M' && t[4] == 'T' && t[9] == 'M';
    assert t == "Max_Time_Month";
  }

  const TimeColumns: map<string, string> := map[
    "month" := "month",
    "quarter" := "'Q' || EXTRACT('quarter' FROM month) || ' ' || EXTRACT('year' FROM month)",
    "year" := "EXTRACT('year' FROM month)::text"]

  /** `time_column_map.get(time_period, "month")`: the SQL expression for the period. */
  function TimeExpression(timePeriod: string): (r: string)
    ensures r == "month" || r == TimeColumns["quarter"] || r == TimeColumns["year"]
  {
    if timePeriod in TimeColumns then TimeColumns[timePeriod] else "month"
  }

  /** Only a quarterly or yearly period leaves the raw month column. */
  lemma TimeExpressionMonthByDefault(timePeriod: string)
    ensures TimeExpression(timePeriod) == "month" <==> timePeriod != "quarter" && timePeriod != "year"
  {
    if timePeriod == "quarter" {
      assert |TimeExpression(timePeriod)| != 5;
    } else if timePeriod == "year" {
      assert |TimeExpression(timePeriod)| != 5;
    }
  }

  // ------------------------------------------------------------- the chart

  /** Column labels are pairwise distinct, so `data[label]` is a single column. */
  predicate DistinctLabels(f: Frame)
  {
    forall a, b :: 0 <= a < b < |f.columns| ==> f.columns[a] != f.columns[b]
  }

  /** A frame `create_line_chart` can read: the period column, then the pivoted value columns. */
  predicate LineFrame(f: Frame)
  {
    Rectangular(f) && |f.columns| >= 1 && DistinctLabels(f)
  }

  /** `unique_lines` of the final prompt. */
  function UniqueLines(f: Frame): int
  {
    |f.columns| - 1
  }

  /** The line of column `j`: named `str(label)`, holding the column's values. */
  function LineSeriesEntry(f: Frame, j: nat): Json
    requires LineFrame(f) && 1 <= j < |f.columns|
  {
    JObj([("name", JStr(Show(f.columns[j]))), ("data", JArr(Column(f, j)))])
  }

  /** `series_data`: one line per column after the first, in column order. */
  function LineSeries(f: Frame): (series: seq<Json>)
    requires LineFrame(f)
    ensures |series| == |f.columns| - 1
    ensures forall i :: 0 <= i < |series| ==> series[i] == LineSeriesEntry(f, i + 1)
  {
    seq(|f.columns| - 1, i requires 0 <= i < |f.columns| - 1 => LineSeriesEntry(f, i + 1))
  }

  /** The series loop of `create_line_chart`. */
  method BuildLineSeries(f: Frame) returns (series: seq<Json>)
    requires LineFrame(f)
    ensures series == LineSeries(f)
  {
    series := [];
    for j := 1 to |f.columns|
      invariant |series| == j - 1
      invariant forall i :: 0 <= i < j - 1 ==> series[i] == LineSeriesEntry(f, i + 1)
    {
      var dimValue := f.columns[j];
      var values := Column(f, j);
      series := series + [JObj([("name", JStr(Show(dimValue))), ("data", JArr(values))])];
    }
  }

  /** The chart title: metric label and dimension label. */
  function LineTitle(dimension: string, metric: string): string
  {
    FormatMetricName(metric) + " Trends by " + LineDimensionName(dimension) + " Over Time"
  }

  /** The Highcharts options of the line chart, from the values `create_line_chart` computes. */
  function LineOptionsOf(title: string, categories: seq<Json>, timeLabel: string, yTitle: string,
                         yFormat: string, series: seq<Json>): Json
  {
    JObj([
      ("chart", JObj([("type", JStr("line")), ("height", JInt(500))])),
      ("title", JObj([("text", JStr(title))])),
      ("xAxis", JObj([
        ("categories", JArr(categories)),
        ("title", JObj([("text", JStr(timeLabel))]))])),
      ("yAxis", JObj([
        ("title", JObj([("text", JStr(yTitle))])),
        ("labels", JObj([("format", JStr(yFormat))]))])),
      ("tooltip", JObj([("pointFormat",
        JStr("<span style='color:{series.color}'>{series.name}</span>: <b>{point.y:,.0f}</b><br/>"))])),
      ("legend", JObj([("enabled", JBool(true))])),
      ("plotOptions", JObj([("line", JObj([
        ("dataLabels", JObj([("enabled", JBool(false))])),
        ("marker", JObj([("enabled", JBool(true)), ("radius", JInt(4))]))]))])),
      ("series", JArr(series))])
  }

  /** The options of the line chart for a frame, a dimension, a metric and a period. */
  function LineOptions(f: Frame, dimension: string, metric: string, timePeriod: string): Json
    requires LineFrame(f)
  {
    LineOptionsOf(LineTitle(dimension, metric), Column(f, 0), Capitalize(timePeriod),
      FormatMetricName(metric), GetAxisFormat(metric), LineSeries(f))
  }

  /** The layout `create_line_chart` serialises. */
  function LineChartLayout(f: Frame, dimension: string, metric: string, timePeriod: string): Json
    requires LineFrame(f)
  {
    Document([MainContainer, HighchartsComponent("TimeSeriesChart", LineOptions(f, dimension, metric, timePeriod))])
  }

  /** `create_line_chart`, with `json.dumps` as `dumps`. */
  method CreateLineChart(f: Frame, dimension: string, metric: string, timePeriod: string, dumps: Json -> string)
    returns (viz: SkillVisualization)
    requires LineFrame(f)
    ensures viz.title == "Time Series Line Chart"
    ensures viz.layout == dumps(LineChartLayout(f, dimension, metric, timePeriod))
  {
    var timePeriods := Column(f, 0);
    var series := BuildLineSeries(f);
    var metricFormatted := FormatMetricName(metric);
    var dimensionFormatted := LineDimensionName(dimension);
    var timeFormatted := Capitalize(timePeriod);
    var options := LineOptionsOf(
      metricFormatted + " Trends by " + dimensionFormatted + " Over Time",
      timePeriods, timeFormatted, metricFormatted, GetAxisFormat(metric), series);
    var chart := HighchartsComponent("TimeSeriesChart", options);
    viz := SkillVisualization("Time Series Line Chart", dumps(Document([MainContainer, chart])));
  }

  // ------------------------------------------------------------ option paths

  lemma LineOptionsTitle(title: string, categories: seq<Json>, timeLabel: string, yTitle: string,
                         yFormat: string, series: seq<Json>)
    ensures At(LineOptionsOf(title, categories, timeLabel, yTitle, yFormat, series), [Key("title"), Key("text")])
      == Some(JStr(title))
  {
    var o := LineOptionsOf(title, categories, timeLabel, yTitle, yFormat, series);
    GetFirst(o.members, 1);
    AtKeys2(o, "title", "text");
  }

  lemma LineOptionsCategories(title: string, categories: seq<Json>, timeLabel: string, yTitle: string,
                              yFormat: string, series: seq<Json>)
    ensures At(LineOptionsOf(title, categories, timeLabel, yTitle, yFormat, series), [Key("xAxis"), Key("categories")])
      == Some(JArr(categories))
  {
    var o := LineOptionsOf(title, categories, timeLabel, yTitle, yFormat, series);
    GetFirst(o.members, 2);
    AtKeys2(o, "xAxis", "categories");
  }

  lemma LineOptionsXTitle(title: string, categories: seq<Json>, timeLabel: string, yTitle: string,
                          yFormat: string, series: seq<Json>)
    ensures At(LineOptionsOf(title, categories, timeLabel, yTitle, yFormat, series), [Key("xAxis"), Key("title"), Key("text")])
      == Some(JStr(timeLabel))
  {
    var o := LineOptionsOf(title, categories, timeLabel, yTitle, yFormat, series);
    GetFirst(o.members, 2);
    GetFirst(o.members[2].1.members, 1);
    AtKeys3(o, "xAxis", "title", "text");
  }

  lemma LineOptionsYAxis(title: string, categories: seq<Json>, timeLabel: string, yTitle: string,
                         yFormat: string, series: seq<Json>)
    ensures At(LineOptionsOf(title, categories, timeLabel, yTitle, yFormat, series), [Key("yAxis"), Key("title"), Key("text")])
      == Some(JStr(yTitle))
    ensures At(LineOptionsOf(title, categories, timeLabel, yTitle, yFormat, series), [Key("yAxis"), Key("labels"), Key("format")])
      == Some(JStr(yFormat))
  {
    var o := LineOptionsOf(title, categories, timeLabel, yTitle, yFormat, series);
    GetFirst(o.members, 3);
    GetFirst(o.members[3].1.members, 1);
    AtKeys3(o, "yAxis", "title", "text");
    AtKeys3(o, "yAxis", "labels", "format");
  }

  lemma LineOptionsLegend(title: string, categories: seq<Json>, timeLabel: string, yTitle: string,
                          yFormat: string, series: seq<Json>)
    ensures At(LineOptionsOf(title, categories, timeLabel, yTitle, yFormat, series), [Key("legend"), Key("enabled")])
      == Some(JBool(true))
  {
    var o := LineOptionsOf(title, categories, timeLabel, yTitle, yFormat, series);
    GetFirst(o.members, 5);
    AtKeys2(o, "legend", "enabled");
  }

  lemma LineOptionsDataLabels(title: string, categories: seq<Json>, timeLabel: string, yTitle: string,
                              yFormat: string, series: seq<Json>)
    ensures At(LineOptionsOf(title, categories, timeLabel, yTitle, yFormat, series),
      [Key("plotOptions"), Key("line"), Key("dataLabels"), Key("enabled")]) == Some(JBool(false))
  {
    var o := LineOptionsOf(title, categories, timeLabel, yTitle, yFormat, series);
    GetFirst(o.members, 6);
    AtKey(o, "plotOptions", [Key("line"), Key("dataLabels"), Key("enabled")]);
    AtKeys3(o.members[6].1, "line", "dataLabels", "enabled");
  }

  lemma LineOptionsSeries(title: string, categories: seq<Json>, timeLabel: string, yTitle: string,
                          yFormat: string, series: seq<Json>)
    ensures At(LineOptionsOf(title, categories, timeLabel, yTitle, yFormat, series), [Key("series")])
      == Some(JArr(series))
  {
    var o := LineOptionsOf(title, categories, timeLabel, yTitle, yFormat, series);
    GetFirst(o.members, 7);
    AtKey(o, "series", []);
  }

  // ------------------------------------------------------------ properties

  /** The options sit in the second child of the Document. */
  lemma LineOptionsAt(f: Frame, dimension: string, metric: string, timePeriod: string)
    requires LineFrame(f)
    ensures At(LineChartLayout(f, dimension, metric, timePeriod), OptionsPath)
      == Some(LineOptions(f, dimension, metric, timePeriod))
  {
    ChartOptionsAt("TimeSeriesChart", LineOptions(f, dimension, metric, timePeriod));
  }

  /**
   * The options carry the series list, one line per column after the first,
   * as many lines as the final prompt announces.
   */
  lemma LineChartSeries(f: Frame, dimension: string, metric: string, timePeriod: string)
    requires LineFrame(f)
    ensures At(LineOptions(f, dimension, metric, timePeriod), [Key("series")]) == Some(JArr(LineSeries(f)))
    ensures |LineSeries(f)| == UniqueLines(f)
  {
    LineOptionsSeries(LineTitle(dimension, metric), Column(f, 0), Capitalize(timePeriod),
      FormatMetricName(metric), GetAxisFormat(metric), LineSeries(f));
  }

  /** Line `i` is named `str` of the label of column `i + 1` and holds that column. */
  lemma LineSeriesLine(f: Frame, i: nat)
    requires LineFrame(f) && i < |f.columns| - 1
    ensures At(LineSeries(f)[i], [Key("name")]) == Some(JStr(Show(f.columns[i + 1])))
    ensures At(LineSeries(f)[i], [Key("data")]) == Some(JArr(Column(f, i + 1)))
  {
    var name, data := JStr(Show(f.columns[i + 1])), JArr(Column(f, i + 1));
    assert LineSeries(f)[i] == JObj([("name", name), ("data", data)]);
    NameDataFields(name, data);
  }

  lemma NameDataFields(name: Json, data: Json)
    ensures At(JObj([("name", name), ("data", data)]), [Key("name")]) == Some(name)
    ensures At(JObj([("name", name), ("data", data)]), [Key("data")]) == Some(data)
  {
    var s := JObj([("name", name), ("data", data)]);
    GetFirst(s.members, 0);
    GetFirst(s.members, 1);
    AtKey(s, "name", []);
    AtKey(s, "data", []);
  }

  /**
   * The title names the metric and dimension labels; the x axis carries the
   * periods of the first column under the capitalised period name; the y
   * axis carries the metric label and its axis format.
   */
  lemma LineChartTitles(f: Frame, dimension: string, metric: string, timePeriod: string)
    requires LineFrame(f)
    ensures At(LineOptions(f, dimension, metric, timePeriod), [Key("title"), Key("text")])
      == Some(JStr(FormatMetricName(metric) + " Trends by " + LineDimensionName(dimension) + " Over Time"))
    ensures At(LineOptions(f, dimension, metric, timePeriod), [Key("xAxis"), Key("categories")]) == Some(JArr(Column(f, 0)))
    ensures At(LineOptions(f, dimension, metric, timePeriod), [Key("xAxis"), Key("title"), Key("text")])
      == Some(JStr(Capitalize(timePeriod)))
    ensures At(LineOptions(f, dimension, metric, timePeriod), [Key("yAxis"), Key("title"), Key("text")])
      == Some(JStr(FormatMetricName(metric)))
    ensures At(LineOptions(f, dimension, metric, timePeriod), [Key("yAxis"), Key("labels"), Key("format")])
      == Some(JStr(GetAxisFormat(metric)))
  {
    var title := LineTitle(dimension, metric);
    LineOptionsTitle(title, Column(f, 0), Capitalize(timePeriod), FormatMetricName(metric), GetAxisFormat(metric), LineSeries(f));
    LineOptionsCategories(title, Column(f, 0), Capitalize(timePeriod), FormatMetricName(metric), GetAxisFormat(metric), LineSeries(f));
    LineOptionsXTitle(title, Column(f, 0), Capitalize(timePeriod), FormatMetricName(metric), GetAxisFormat(metric), LineSeries(f));
    LineOptionsYAxis(title, Column(f, 0), Capitalize(timePeriod), FormatMetricName(metric), GetAxisFormat(metric), LineSeries(f));
  }

  /** The legend is always on and the data labels always off. */
  lemma LineChartFlags(f: Frame, dimension: string, metric: string, timePeriod: string)
    requires LineFrame(f)
    ensures At(LineOptions(f, dimension, metric, timePeriod), [Key("legend"), Key("enabled")]) == Some(JBool(true))
    ensures At(LineOptions(f, dimension, metric, timePeriod), [Key("plotOptions"), Key("line"), Key("dataLabels"), Key("enabled")])
      == Some(JBool(false))
  {
    LineOptionsLegend(LineTitle(dimension, metric), Column(f, 0), Capitalize(timePeriod),
      FormatMetricName(metric), GetAxisFormat(metric), LineSeries(f));
    LineOptionsDataLabels(LineTitle(dimension, metric), Column(f, 0), Capitalize(timePeriod),
      FormatMetricName(metric), GetAxisFormat(metric), LineSeries(f));
  }

  /** The line chart layout passes every structural check of the layout validator. */
  lemma LineChartLayoutValid(f: Frame, dimension: string, metric: string, timePeriod: string)
    requires LineFrame(f)
    ensures StructuralFindings(LineChartLayout(f, dimension, metric, timePeriod)) == NoFindings
  {
    ChartLayoutValid("TimeSeriesChart", LineOptions(f, dimension, metric, timePeriod));
  }
}
