/**
 * The data-table skill: the prompt's list display, the mapping from
 * requested dimensions to query columns, and `create_data_table`, which turns
 * the query result into text cells (metric columns through the metric value
 * formatter, other columns through `str`) inside a DataTable layout.
 */
module DataTableDisplay {
  import opened Strings
  import opened Json
  import opened VizPreviewer
  import opened Layout

  // ------------------------------------------------------------- list display

  /** `format_list_display`: "a", "a and b", or "a, b, and c" (Oxford comma). */
  function FormatListDisplay(items: seq<string>): (r: string)
    requires |items| >= 1
    ensures items[0] <= r
    ensures |items[|items| - 1]| <= |r| && r[|r| - |items[|items| - 1]|..] == items[|items| - 1]
  {
    if |items| == 1 then items[0]
    else if |items| == 2 then items[0] + " and " + items[1]
    else Join(", ", items[..|items| - 1]) + ", and " + items[|items| - 1]
  }

  /** The three shapes of the display, by number of items. */
  lemma ListDisplayShapes(items: seq<string>)
    requires |items| >= 1
    ensures |items| == 1 ==> FormatListDisplay(items) == items[0]
    ensures |items| == 2 ==> FormatListDisplay(items) == items[0] + " and " + items[1]
    ensures |items| >= 3 ==> (FormatListDisplay(items)
      == Join(", ", items[..|items| - 2]) + ", " + items[|items| - 2] + ", and " + items[|items| - 1])
  {
    var n := |items|;
    if n >= 3 {
      assert items[..n - 1] == items[..n - 2] + [items[n - 2]];
      JoinSnoc(", ", items[..n - 2], items[n - 2]);
    }
  }

  /** No item is lost: every item occurs in the display. */
  lemma ListDisplayMentionsAll(items: seq<string>, k: nat)
    requires |items| >= 1 && k < |items|
    ensures Contains(FormatListDisplay(items), items[k])
  {
    var n := |items|;
    if n == 1 {
      ContainsAt(items[0], items[0]);
      assert items[0] <= items[0][0..];
    } else if n == 2 {
      PairMentionsBoth(items[0], items[1], items[k]);
    } else {
      assert k < n - 1 ==> items[k] == items[..n - 1][k];
      LongListMentions(items[..n - 1], items[n - 1], items[k]);
    }
  }

  /** Each item of a list of three or more occurs in its Oxford-comma display. */
  lemma LongListMentions(head: seq<string>, last: string, x: string)
    requires |head| >= 2 && (x in head || x == last)
    ensures Contains(Join(", ", head) + ", and " + last, x)
  {
    if x in head {
      var j :| 0 <= j < |head| && head[j] == x;
      JoinContains(", ", head, j);
      ContainsWithin("", Join(", ", head), ", and " + last, x);
      assert "" + Join(", ", head) + (", and " + last) == Join(", ", head) + ", and " + last;
    } else {
      PairMentionsBoth(Join(", ", head) + ",", last, x);
      assert Join(", ", head) + "," + " and " + last == Join(", ", head) + ", and " + last;
    }
  }

  lemma PairMentionsBoth(a: string, b: string, x: string)
    requires x == a || x == b
    ensures Contains(a + " and " + b, x)
  {
    ContainsAt(x, x);
    assert x <= x[0..];
    if x == a {
      ContainsWithin("", a, " and " + b, x);
      assert "" + a + (" and " + b) == a + " and " + b;
    } else {
      ContainsWithin(a + " and ", b, "", x);
      assert a + " and " + b + "" == a + " and " + b;
    }
  }

  /** The prompt's "dimensions" phrase: the dimension labels as a list display. */
  function DimensionDisplay(dimensions: seq<string>): string
    requires |dimensions| >= 1
  {
    FormatListDisplay(seq(|dimensions|, i requires 0 <= i < |dimensions| => FormatDimensionName(dimensions[i])))
  }

  /** The prompt's "metrics" phrase: the metric labels as a list display. */
  function MetricDisplay(metrics: seq<string>): string
    requires |metrics| >= 1
  {
    FormatListDisplay(seq(|metrics|, i requires 0 <= i < |metrics| => FormatMetricName(metrics[i])))
  }

  // ------------------------------------------------------ dimension columns

  /** `dimension_column_map.get(dim, dim)`. */
  function DimensionColumn(dimension: string): string
  {
    if dimension == "max_time_month" then "month" else dimension
  }

  /** The column-list loop of `get_table_data`: one column per dimension, in order. */
  method DimensionColumns(dimensions: seq<string>) returns (columns: seq<string>)
    ensures |columns| == |dimensions|
    ensures forall i :: 0 <= i < |dimensions| ==>
      columns[i] == (if dimensions[i] == "max_time_month" then "month" else dimensions[i])
    ensures "max_time_month" !in columns
  {
    columns := [];
    for i := 0 to |dimensions|
      invariant |columns| == i
      invariant forall j :: 0 <= j < i ==> columns[j] == DimensionColumn(dimensions[j])
      invariant "max_time_month" !in columns
    {
      columns := columns + [DimensionColumn(dimensions[i])];
    }
  }

  // --------------------------------------------------------- cell formatting

  /** Position of the first requested metric whose label is the column header. */
  function MetricFor(header: Json, metrics: seq<string>): (r: Option<nat>)
    ensures r.Some? ==> r.value < |metrics| && header == JStr(FormatMetricName(metrics[r.value]))
    ensures r.Some? ==> forall j :: 0 <= j < r.value ==> header != JStr(FormatMetricName(metrics[j]))
    ensures r.None? <==> forall j :: 0 <= j < |metrics| ==> header != JStr(FormatMetricName(metrics[j]))
  {
    if |metrics| == 0 then None
    else if header == JStr(FormatMetricName(metrics[0])) then Some(0)
    else match MetricFor(header, metrics[1..])
      case None => None
      case Some(k) => Some(k + 1)
  }

  /** The inner search loop of `create_data_table`, with its `break`. */
  method FindMetric(header: Json, metrics: seq<string>) returns (r: Option<nat>)
    ensures r == MetricFor(header, metrics)
  {
    r := None;
    var k := 0;
    while k < |metrics|
      invariant 0 <= k <= |metrics|
      invariant forall j :: 0 <= j < k ==> header != JStr(FormatMetricName(metrics[j]))
    {
      if JStr(FormatMetricName(metrics[k])) == header {
        MetricForFirst(header, metrics, k);
        r := Some(k);
        break;
      }
      k := k + 1;
    }
  }

  /** The search stops at the first matching label. */
  lemma MetricForFirst(header: Json, metrics: seq<string>, k: nat)
    requires k < |metrics| && header == JStr(FormatMetricName(metrics[k]))
    requires forall j :: 0 <= j < k ==> header != JStr(FormatMetricName(metrics[j]))
    ensures MetricFor(header, metrics) == Some(k)
  {
  }

  /**
   * `format_metric_value`, with Python's `format(value, spec)` as `render`;
   * volume, units and unknown metrics share the `,.0f` default.
   */
  function FormatMetricValue(value: Json, metric: string, render: (Json, string) -> string): (r: string)
    ensures value == JNull ==> r == "N/A"
    ensures value != JNull && metric == "sales" ==> |r| > 0 && r[0] == '$'
  {
    if value == JNull then "N/A"
    else if metric == "sales" then "$" + render(value, ",.0f")
    else if metric == "acv" || metric == "tdp" then render(value, ",.1f")
    else render(value, ",.0f")
  }

  /**
   * The table shows a metric value with the same currency prefix and number
   * spec that the charts' y-axis template uses for that metric.
   */
  lemma MetricValueMatchesAxis(value: Json, metric: string, render: (Json, string) -> string)
    requires value != JNull
    ensures FormatMetricValue(value, metric, render) == CurrencyPrefix(metric) + render(value, NumberSpec(metric))
    ensures GetAxisFormat(metric) == CurrencyPrefix(metric) + "{value:" + NumberSpec(metric) + "}"
  {
    AxisFormatShape(metric);
  }

  /**
   * Whether a column is shown as a metric: some requested metric has the
   * header as its label, and the label is not empty (an empty metric name
   * matches an empty header but is false in the `if original_metric:` test).
   */
  predicate IsMetricColumn(header: Json, metrics: seq<string>)
  {
    header != JStr("") && exists m :: m in metrics && header == JStr(FormatMetricName(m))
  }

  /** One cell of `formatted_rows`; `JNull` stands for what `pd.isna` accepts. */
  function FormatCell(cell: Json, header: Json, metrics: seq<string>, render: (Json, string) -> string): (r: string)
    ensures cell == JNull ==> r == "N/A"
    ensures cell != JNull && !IsMetricColumn(header, metrics) ==> r == Show(cell)
    ensures cell != JNull && IsMetricColumn(header, metrics) ==>
      MetricFor(header, metrics).Some? && r == FormatMetricValue(cell, metrics[MetricFor(header, metrics).value], render)
  {
    MetricColumnChoice(header, metrics);
    match MetricFor(header, metrics)
    case Some(k) =>
      if metrics[k] != "" then
        (if cell == JNull then "N/A" else FormatMetricValue(cell, metrics[k], render))
      else if cell == JNull then "N/A" else Show(cell)
    case None => if cell == JNull then "N/A" else Show(cell)
  }

  /** The metric branch is taken exactly for metric columns. */
  lemma MetricColumnChoice(header: Json, metrics: seq<string>)
    ensures (MetricFor(header, metrics).Some? && metrics[MetricFor(header, metrics).value] != "")
      <==> IsMetricColumn(header, metrics)
  {
    match MetricFor(header, metrics)
    case Some(k) =>
      MetricNameKeepsLetters(metrics[k]);
    case None =>
      forall m | m in metrics
        ensures header != JStr(FormatMetricName(m))
      {
        var j :| 0 <= j < |metrics| && metrics[j] == m;
      }
  }

  /**
   * Labels can collide: "ACV" is upper-cased and "acv" is mapped, both to
   * "ACV". The first requested metric decides the format, here `,.0f`.
   */
  lemma CollidingLabelsFirstWins(value: Json, render: (Json, string) -> string)
    requires value != JNull
    ensures FormatCell(value, JStr("ACV"), ["ACV", "acv"], render) == render(value, ",.0f")
    ensures FormatCell(value, JStr("ACV"), ["acv", "ACV"], render) == render(value, ",.1f")
  {
    assert Upper("ACV") == "ACV";
    assert FormatMetricName("ACV") == "ACV" && FormatMetricName("acv") == "ACV";
    assert IsMetricColumn(JStr("ACV"), ["ACV", "acv"]) by {
      assert "ACV" in ["ACV", "acv"];
    }
    assert IsMetricColumn(JStr("ACV"), ["acv", "ACV"]) by {
      assert "acv" in ["acv", "ACV"];
    }
  }

  /** `formatted_rows`: every cell of every row, formatted by its column. */
  function FormattedTable(f: Frame, metrics: seq<string>, render: (Json, string) -> string): (t: seq<seq<string>>)
    requires Rectangular(f)
    ensures |t| == |f.rows|
    ensures forall r :: 0 <= r < |f.rows| ==> |t[r]| == |f.rows[r]|
    ensures forall r, i :: 0 <= r < |f.rows| && 0 <= i < |f.rows[r]| ==>
      t[r][i] == FormatCell(f.rows[r][i], f.columns[i], metrics, render)
  {
    seq(|f.rows|, r requires 0 <= r < |f.rows| =>
      seq(|f.rows[r]|, i requires 0 <= i < |f.rows[r]| => FormatCell(f.rows[r][i], f.columns[i], metrics, render)))
  }

  /** The body of the outer loop: one formatted row. */
  method FormatRow(row: seq<Json>, headers: seq<Json>, metrics: seq<string>, render: (Json, string) -> string)
    returns (formatted: seq<string>)
    requires |row| <= |headers|
    ensures |formatted| == |row|
    ensures forall i :: 0 <= i < |row| ==> formatted[i] == FormatCell(row[i], headers[i], metrics, render)
  {
    formatted := [];
    for i := 0 to |row|
      invariant |formatted| == i
      invariant forall j :: 0 <= j < i ==> formatted[j] == FormatCell(row[j], headers[j], metrics, render)
    {
      var cell := row[i];
      var om := FindMetric(headers[i], metrics);
      MetricColumnChoice(headers[i], metrics);
      var text;
      if om.Some? && metrics[om.value] != "" {
        text := if cell == JNull then "N/A" else FormatMetricValue(cell, metrics[om.value], render);
      } else {
        text := if cell == JNull then "N/A" else Show(cell);
      }
      formatted := formatted + [text];
    }
  }

  /** The nested loops of `create_data_table`. */
  method FormatRows(f: Frame, metrics: seq<string>, render: (Json, string) -> string)
    returns (formatted: seq<seq<string>>)
    requires Rectangular(f)
    ensures |formatted| == |f.rows|
    ensures forall r :: 0 <= r < |f.rows| ==> |formatted[r]| == |f.rows[r]|
    ensures formatted == FormattedTable(f, metrics, render)
  {
    formatted := [];
    for r := 0 to |f.rows|
      invariant |formatted| == r
      invariant forall q :: 0 <= q < r ==> formatted[q] == FormattedTable(f, metrics, render)[q]
    {
      var row := FormatRow(f.rows[r], f.columns, metrics, render);
      formatted := formatted + [row];
    }
  }

  /** The text cells as the JSON list of lists the DataTable's `data` holds. */
  function TableData(cells: seq<seq<string>>): (data: Json)
    ensures data.JArr? && |data.items| == |cells|
    ensures forall r :: 0 <= r < |cells| ==> data.items[r].JArr? && |data.items[r].items| == |cells[r]|
    ensures forall r, i :: 0 <= r < |cells| && 0 <= i < |cells[r]| ==> data.items[r].items[i] == JStr(cells[r][i])
  {
    JArr(seq(|cells|, r requires 0 <= r < |cells| =>
      JArr(seq(|cells[r]|, i requires 0 <= i < |cells[r]| => JStr(cells[r][i])))))
  }

  /** The DataTable component: the headers as columns and the text cells as data. */
  function DataTable(headers: seq<Json>, cells: seq<seq<string>>): Json
  {
    JObj([
      ("type", JStr("DataTable")),
      ("name", JStr("DataDisplay")),
      ("parentId", JStr("MainContainer")),
      ("columns", JArr(headers)),
      ("data", TableData(cells))])
  }

  /** The layout `create_data_table` serialises. */
  function DataTableLayout(f: Frame, metrics: seq<string>, render: (Json, string) -> string): Json
    requires Rectangular(f)
  {
    Document([MainContainer, DataTable(f.columns, FormattedTable(f, metrics, render))])
  }

  /**
   * `create_data_table`, with `json.dumps` as `dumps`; its sort parameters
   * are unused by the function.
   */
  method CreateDataTable(f: Frame, metrics: seq<string>, render: (Json, string) -> string, dumps: Json -> string)
    returns (viz: SkillVisualization)
    requires Rectangular(f)
    ensures viz.title == "Data Table"
    ensures viz.layout == dumps(DataTableLayout(f, metrics, render))
  {
    var formatted := FormatRows(f, metrics, render);
    var layout := Document([MainContainer, DataTable(f.columns, formatted)]);
    viz := SkillVisualization("Data Table", dumps(layout));
  }

  /**
   * The table keeps the frame's headers, and its data has one text cell per
   * input cell, each formatted by its column.
   */
  lemma DataTableShape(f: Frame, metrics: seq<string>, render: (Json, string) -> string)
    requires Rectangular(f)
    ensures At(DataTableLayout(f, metrics, render), [Key("children"), Index(1), Key("columns")]) == Some(JArr(f.columns))
    ensures At(DataTableLayout(f, metrics, render), [Key("children"), Index(1), Key("data")])
      == Some(TableData(FormattedTable(f, metrics, render)))
  {
    var table := DataTable(f.columns, FormattedTable(f, metrics, render));
    var layout := DataTableLayout(f, metrics, render);
    GetFirst(layout.members, 6);
    GetFirst(table.members, 3);
    GetFirst(table.members, 4);
  }

  /**
   * The table layout passes every structural check of the layout validator,
   * whatever the data; only the raw-text scan can still object, when some
   * cell spells `function(`.
   */
  lemma DataTableLayoutValid(f: Frame, metrics: seq<string>, render: (Json, string) -> string)
    requires Rectangular(f)
    ensures StructuralFindings(DataTableLayout(f, metrics, render)) == NoFindings
  {
    var table := DataTable(f.columns, FormattedTable(f, metrics, render));
    MainContainerAndComponent(table);
    assert HasKey(table, "type") && !HasKey(table, "children");
    assert Get(table, "type") == Some(JStr("DataTable"));
  }
}
