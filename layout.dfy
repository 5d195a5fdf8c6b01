/**
 * What the three query skills share: the query result they read (a pandas
 * DataFrame, seen as column labels and rows of cells), the Document shell
 * every builder wraps its components in, and the display-name and number
 * format lookups that each skill file defines for itself, with identical
 * tables (the line chart's dimension table, which differs, lives with the
 * line chart).
 */
module Layout {
  import opened Strings
  import opened Json
  import opened VizPreviewer

  // ------------------------------------------------------------ data frames

  /** A DataFrame: `data.columns` and `data.values`. */
  datatype Frame = Frame(columns: seq<Json>, rows: seq<seq<Json>>)

  /** Every row has one cell per column, as every DataFrame does. */
  predicate Rectangular(f: Frame)
  {
    forall r :: 0 <= r < |f.rows| ==> |f.rows[r]| == |f.columns|
  }

  /** `data.iloc[:, j].tolist()`: column `j`, top to bottom. */
  function Column(f: Frame, j: nat): (col: seq<Json>)
    requires Rectangular(f) && j < |f.columns|
    ensures |col| == |f.rows|
    ensures forall r :: 0 <= r < |f.rows| ==> col[r] == f.rows[r][j]
  {
    seq(|f.rows|, r requires 0 <= r < |f.rows| => f.rows[r][j])
  }

  // --------------------------------------------------------- Document shell

  /** The 160 x 100 grid Document every skill returns, around its components. */
  function Document(children: seq<Json>): Json
  {
    JObj([
      ("type", JStr("Document")),
      ("rows", JInt(100)),
      ("columns", JInt(160)),
      ("rowHeight", JStr("1.11%")),
      ("colWidth", JStr("0.625%")),
      ("gap", JStr("0px")),
      ("children", JArr(children))])
  }

  /** The column FlexContainer that is every layout's first child. */
  const MainContainer := JObj([
    ("type", JStr("FlexContainer")),
    ("name", JStr("MainContainer")),
    ("style", JObj([
      ("flexDirection", JStr("column")),
      ("padding", JStr("20px")),
      ("height", JStr("100%"))]))])

  /** A root holding all seven properties misses none of them. */
  lemma {:induction false} NoneMissing(root: Json, k: nat)
    requires Iterable(root) && k <= |RequiredProps|
    requires forall i :: 0 <= i < k ==> Contained(RequiredProps[i], root)
    ensures MissingProps(root, k) == []
  {
    if k > 0 {
      NoneMissing(root, k - 1);
    }
  }

  /** The shell's members are the required properties, in order. */
  lemma DocumentHoldsRequired(children: seq<Json>)
    ensures forall i :: 0 <= i < |RequiredProps| ==> Contained(RequiredProps[i], Document(children))
  {
    var root := Document(children);
    forall i | 0 <= i < |RequiredProps|
      ensures Contained(RequiredProps[i], root)
    {
      assert root.members[i].0 == RequiredProps[i];
    }
  }

  /**
   * The Document shell satisfies every root-level check of the validator:
   * whatever it reports comes from the component list alone.
   */
  lemma DocumentPassesRootChecks(children: seq<Json>)
    ensures StructuralFindings(Document(children)) == ChildrenFindings(JArr(children))
  {
    var root := Document(children);
    DocumentHoldsRequired(children);
    NoneMissing(root, |RequiredProps|);
    assert Get(root, "children") == Some(JArr(children));
    assert Get(root, "type") == Some(JStr("Document"));
  }

  /**
   * A Document holding `MainContainer` and one more component gets exactly
   * the child findings of that component, as child 1.
   */
  lemma MainContainerAndComponent(c: Json)
    ensures StructuralFindings(Document([MainContainer, c])) == ChildFindings(1, c)
  {
    DocumentPassesRootChecks([MainContainer, c]);
    assert HasKey(MainContainer, "type") && !HasKey(MainContainer, "children");
    assert Get(MainContainer, "type") == Some(JStr("FlexContainer"));
    assert ChildFindings(0, MainContainer) == NoFindings;
    assert ChildListFindings([MainContainer, c], 1) == NoFindings;
  }

  /** A HighchartsChart component placed in `MainContainer`. */
  function HighchartsComponent(name: string, options: Json): Json
  {
    JObj([
      ("type", JStr("HighchartsChart")),
      ("name", JStr(name)),
      ("parentId", JStr("MainContainer")),
      ("options", options)])
  }

  const OptionsPath: seq<Step> := [Key("children"), Index(1), Key("options")]

  /** A chart layout's options sit in the Document's second child. */
  lemma ChartOptionsAt(name: string, options: Json)
    ensures At(Document([MainContainer, HighchartsComponent(name, options)]), OptionsPath) == Some(options)
  {
    var layout := Document([MainContainer, HighchartsComponent(name, options)]);
    GetFirst(layout.members, 6);
    GetFirst(HighchartsComponent(name, options).members, 3);
  }

  /**
   * A chart layout passes every structural check of the layout validator:
   * its chart has a type, no `children` and an `options` key.
   */
  lemma ChartLayoutValid(name: string, options: Json)
    ensures StructuralFindings(Document([MainContainer, HighchartsComponent(name, options)])) == NoFindings
  {
    var chart := HighchartsComponent(name, options);
    MainContainerAndComponent(chart);
    GetFirst(chart.members, 0);
    GetFirst(chart.members, 3);
    assert !HasKey(chart, "children");
  }

  // ------------------------------------------------------------ display names

  const DimensionLabels: map<string, string> := map[
    "segment" := "Segment",
    "brand" := "Brand",
    "manufacturer" := "Manufacturer",
    "state_name" := "State",
    "sub_category" := "Sub-Category",
    "max_time_month" := "Month"]

  /** `format_dimension_name`: a fixed label for six keys, `title()` of any other. */
  function FormatDimensionName(dimension: string): (r: string)
    ensures r == "" <==> dimension == ""
    ensures dimension !in DimensionLabels ==> |r| == |dimension|
  {
    if dimension in DimensionLabels then DimensionLabels[dimension] else Title(dimension)
  }

  /**
   * An unknown dimension is title-cased: its letters are kept up to case and
   * the label is its own title case.
   */
  lemma DimensionNameFallback(dimension: string)
    requires dimension !in DimensionLabels
    ensures Lower(FormatDimensionName(dimension)) == Lower(dimension)
    ensures Title(FormatDimensionName(dimension)) == FormatDimensionName(dimension)
  {
    TitleKeepsLetters(dimension);
    TitleIdempotent(dimension);
  }

  const MetricLabels: map<string, string> := map[
    "sales" := "Sales",
    "volume" := "Volume",
    "acv" := "ACV",
    "units" := "Units",
    "tdp" := "TDP"]

  /** `format_metric_name`: a fixed label for five keys, `upper()` of any other. */
  function FormatMetricName(metric: string): (r: string)
    ensures |r| == |metric|
  {
    if metric in MetricLabels then MetricLabels[metric] else Upper(metric)
  }

  /**
   * Every metric label, mapped or upper-cased, spells the metric up to case,
   * so it is empty exactly when the metric is.
   */
  lemma MetricNameKeepsLetters(metric: string)
    ensures Lower(FormatMetricName(metric)) == Lower(metric)
    ensures FormatMetricName(metric) == "" <==> metric == ""
  {
    if metric in MetricLabels {
      assert Lower("Sales") == "sales" && Lower("Volume") == "volume" && Lower("ACV") == "acv";
      assert Lower("Units") == "units" && Lower("TDP") == "tdp";
    } else {
      LowerUpper(metric);
    }
  }

  // ----------------------------------------------------------- number formats

  const AxisFormats: map<string, string> := map[
    "sales" := "${value:,.0f}",
    "volume" := "{value:,.0f}",
    "acv" := "{value:,.1f}",
    "units" := "{value:,.0f}",
    "tdp" := "{value:,.1f}"]

  /** `get_axis_format`: the Highcharts y-axis label template for a metric. */
  function GetAxisFormat(metric: string): (r: string)
    ensures r == "${value:,.0f}" || r == "{value:,.0f}" || r == "{value:,.1f}"
    ensures r == "${value:,.0f}" <==> metric == "sales"
  {
    if metric in AxisFormats then AxisFormats[metric] else "{value:,.0f}"
  }

  /** Sales are shown in dollars. */
  function CurrencyPrefix(metric: string): string
  {
    if metric == "sales" then "$" else ""
  }

  /** The Python format spec for a metric: one decimal for acv and tdp, none otherwise. */
  function NumberSpec(metric: string): string
  {
    if metric == "acv" || metric == "tdp" then ",.1f" else ",.0f"
  }

  /**
   * Every axis template, the five mapped ones and the default, is the
   * metric's currency prefix before a `{value:...}` placeholder with the
   * metric's number spec.
   */
  lemma AxisFormatShape(metric: string)
    ensures GetAxisFormat(metric) == CurrencyPrefix(metric) + "{value:" + NumberSpec(metric) + "}"
  {
    if metric == "sales" {
      assert "$" + "{value:" + ",.0f" + "}" == "${value:,.0f}";
    } else if metric == "acv" || metric == "tdp" {
      assert "" + "{value:" + ",.1f" + "}" == "{value:,.1f}";
    } else {
      assert "" + "{value:" + ",.0f" + "}" == "{value:,.0f}";
    }
  }
}
