# Skill visualization layouts, their validator and the test-result scanner

The repository holds analytics "skills" that answer a query with a
visualization. A visualization is a JSON *layout*. It is a `Document` on a
160 x 100 grid whose `children` are components: a `FlexContainer` named
`MainContainer`, then a `DataTable` or a `HighchartsChart` placed in it.
Around the skills sit the authors' tools:

- a tester that validates layout JSON before anything is rendered;
- a runner that executes a generated test script and reads the script's
  `FINAL_RESULT_JSON:` report back from the captured output.

This project models four parts of that code:

- **The layout validator** (module `VizPreviewer`, properties in
  `VizProperties`):
  - the root checks: seven required properties, then `type == "Document"`;
  - the one-level check of `children`;
  - the raw-text scan for `function(` / `function (`;
  - the Highcharts formatter walk of `_check_highcharts_config`. Nothing in
    viz_previewer.py calls that helper, so `test_visualization_json` never
    reports its findings; it is modelled as a standalone check;
  - console-log classification;
  - the per-skill JSON stage of `test_skill_visualization`.

  The checks append to the caller's `errors` and `warnings` lists in place.
  A `Diagnostics` class with two `seq` fields models those lists. Each
  method is proved against a function that lists the messages it appends.
- **The three skill builders** (modules `DataTableDisplay`,
  `BasicDataBarChart` and `TimeSeriesLineChart`, with shared pieces in
  `Layout`):
  - the display-name and number-format lookups;
  - the list phrasing of the final prompts;
  - the series and row-formatting loops, modelled as methods;
  - the layout JSON each builder emits.

  A query result (a pandas DataFrame) is modelled as column labels plus
  rows of cells. The layout is modelled as a `Json` value; `json.dumps` is a
  parameter. Lemmas read fields of the layout by path. They also prove that
  every layout a builder emits passes the validator's structural checks.
- **The result scanner** of `test_skill_visualization_with_executor`
  (module `ExecutorIntegration`):
  - the line loop that finds the JSON object after the marker by counting
    braces;
  - the `json.loads` call, as a parameter returning `None` when it raises;
  - the fallback result.

  The loop is a method. It is proved equal to a declarative description:
  from the first line whose stripped form starts with `{`, up to the first
  later, non-opening line that leaves no brace open.
- **Support modules** `Strings` and `Json`:
  - Python's `lower`/`upper`/`title`/`capitalize` (ASCII only), `strip`,
    `split`, `join`, `find`, `count` and `in`;
  - a JSON value type with `dict.get` lookup and path access.

## Model

| member | source | states |
|---|---|---|
| VizPreviewer.ValidateRoot | builder_utils/viz_previewer.py:395-421 | The lists end as exactly the root findings. For an object root these are: missing-property errors in the fixed order, the root-type error, the children findings, then the raw-text error. A non-object root takes the exception path. |
| VizPreviewer.TestVisualizationJson | builder_utils/viz_previewer.py:382-429 | A parse failure gives one "Invalid JSON" error. Otherwise the result carries the root's findings. `success` holds iff there are no errors, and the console logs are empty. |
| VizPreviewer.CheckRequiredProps | builder_utils/viz_previewer.py:400-403 | Appends one message per missing required property, in list order, and no warning. |
| VizPreviewer.ValidateChildrenStructure | builder_utils/viz_previewer.py:431-453 | A non-list `children` gives one error. A list gives each child's findings in index order. |
| VizPreviewer.CheckChild | builder_utils/viz_previewer.py:437-453 | Appends exactly one child's findings: not an object; missing `type`; non-list `children`; chart without `options`. |
| VizPreviewer.CheckFormatters | builder_utils/viz_previewer.py:358-376 | The recursive walk appends exactly the formatter findings of the value, members and items in order. |
| VizPreviewer.CheckMemberFormatters | builder_utils/viz_previewer.py:360-372 | One member: a string `formatter` is judged; a dict or list is walked; anything else adds nothing. |
| VizPreviewer.CheckFormatterIssues | builder_utils/viz_previewer.py:356-378 | Appends the formatter findings of `options` under the given path. |
| VizPreviewer.CheckComponent | builder_utils/viz_previewer.py:332-351 | Appends the chart findings of a component, then its list children's findings recursively. A non-dict appends nothing. |
| VizPreviewer.CheckChart | builder_utils/viz_previewer.py:337-345 | A HighchartsChart gets its options' formatter findings. Empty or absent options add the "missing options" warning. |
| VizPreviewer.CheckChildren | builder_utils/viz_previewer.py:348-351 | Each child of a list is checked at path `.children[i]`. |
| VizPreviewer.CheckHighchartsConfig | builder_utils/viz_previewer.py:330-354 | The whole layout is checked from path `root`. |
| VizPreviewer.ClassifyLogs | builder_utils/viz_previewer.py:298-306 | The loop with `break` yields one prefixed entry per log of the kind whose lower-cased text contains some pattern. |
| VizPreviewer.CheckForVisualizationErrors | builder_utils/viz_previewer.py:282-306 | Error logs classified against the nine error patterns. |
| VizPreviewer.CheckForVisualizationWarnings | builder_utils/viz_previewer.py:308-328 | Warning logs classified against the five warning patterns. |
| VizPreviewer.TestSkillVisualizationJson | builder_utils/viz_previewer.py:183-200 | Stops with a failed result iff some visualization has errors. That result holds every error and warning, each prefixed `Viz i: `. Otherwise it passes on all warnings. |
| VizPreviewer.PrefixedConcatEmpty | builder_utils/viz_previewer.py:186-193 | The collected errors are empty iff every visualization's are. |
| VizProperties.MissingPropMessageInjective | builder_utils/viz_previewer.py:403 | Two missing-property messages are equal iff they name the same property. |
| VizProperties.MissingPropsExact | builder_utils/viz_previewer.py:400-403 | Each required property's message occurs exactly once if it is missing, and otherwise not at all. |
| VizProperties.MissingPropsHas | builder_utils/viz_previewer.py:400-403 | A property's message is in the error list if and only if the property was checked and the root lacks it. |
| VizProperties.MissingPropsDistinct | builder_utils/viz_previewer.py:400-403 | The loop never reports the same missing property twice. |
| VizProperties.MissingPropsSound | builder_utils/viz_previewer.py:400-403 | Every missing-property error names a required property that is absent. |
| VizProperties.MissingPropsPrefix | builder_utils/viz_previewer.py:401-403 | Checking more properties only extends the error list. |
| VizProperties.RequiredPropsDistinct | builder_utils/viz_previewer.py:400 | The seven required names are pairwise distinct. |
| VizProperties.MissingTypeTwoErrors | builder_utils/viz_previewer.py:400-407 | A root without `type` gets both the missing-`type` error (first) and the root-type error "got: None". |
| VizProperties.RootTypeChecked | builder_utils/viz_previewer.py:406-407 | The root-type error is absent iff `type` is the string `Document`. There is at most one such error, and it quotes the value found. |
| VizProperties.ChildrenNotArrayOneError | builder_utils/viz_previewer.py:433-435 | A non-list `children` adds exactly one error and no warning. |
| VizProperties.NoChildrenNoChildChecks | builder_utils/viz_previewer.py:410-411 | Without `children`, only the root checks report. |
| VizProperties.ChildIgnoresGrandchildren | builder_utils/viz_previewer.py:447-448 | Replacing a child's list-valued `children` by any other list changes nothing: validation is one level deep. |
| VizProperties.ChildListPointwise | builder_utils/viz_previewer.py:437-453 | The list findings depend only on each child's own findings. |
| VizProperties.NonObjectChild | builder_utils/viz_previewer.py:438-440 | A non-object child gives exactly the "must be an object" error and nothing else. |
| VizProperties.ChartWithoutOptionsWarns | builder_utils/viz_previewer.py:451-453 | A HighchartsChart child without `options` gets exactly one warning. It gets no error unless it has `children`. |
| VizProperties.ChildBound | builder_utils/viz_previewer.py:437-453 | A child adds at most two errors and one warning. |
| VizProperties.ChildListBound | builder_utils/viz_previewer.py:437-453 | `n` children add at most `2n` errors and `n` warnings. |
| VizProperties.TextScanOneError | builder_utils/viz_previewer.py:414-416 | The text scan adds at most one error and no warning. The error is there iff `function(` or `function (` occurs in the text. |
| VizProperties.FormattersSound | builder_utils/viz_previewer.py:358-376 | Every error of the formatter walk is a "Formatter function" message. Every warning is a "template string syntax" message. |
| VizProperties.FormatterEntryCases | builder_utils/viz_previewer.py:364-368 | A formatter containing `function` (any case) is an error. Otherwise one containing a brace is accepted, and one without braces is a warning. |
| VizProperties.ComponentSound | builder_utils/viz_previewer.py:332-351 | Everything the component walk reports is a formatter message or a "missing options" warning. |
| VizProperties.ComponentStopsAtNonList | builder_utils/viz_previewer.py:348-351 | A component whose `children` is absent or not a list contributes only its own chart findings. |
| VizProperties.MatchesIgnoresCase | builder_utils/viz_previewer.py:300-302 | Pattern matching ignores the case of the log text. |
| VizProperties.ClassifiedAtMostOnePerLog | builder_utils/viz_previewer.py:301-304 | The `break` yields at most one entry per log. |
| VizProperties.ClassifiedSound | builder_utils/viz_previewer.py:298-304 | Every entry comes from a log of the right kind that matches a pattern, prefixed. |
| VizProperties.ClassifiedComplete | builder_utils/viz_previewer.py:298-304 | Every matching log of the right kind is reported. |
| VizProperties.ClassifiedOnlyKind | builder_utils/viz_previewer.py:299 | Logs of another kind are never reported. |
| VizProperties.PrefixedConcatSound | builder_utils/viz_previewer.py:189-190 | Every collected entry is `Viz i: ` followed by a message of visualization `i`. |
| VizProperties.PrefixedConcatLength | builder_utils/viz_previewer.py:189-190 | Nothing is dropped: the collected list is as long as all the lists together. |
| VizProperties.LongArtifactsFourErrors | longArtifactsMultiTabs.py:3-29 | That layout gets exactly four errors, for `rows`, `columns`, `rowHeight` and `colWidth`, and no warning. |
| VizProperties.DocumentRootFindings | builder_utils/viz_previewer.py:395-421 | A dict typed `Document` gets its missing-property errors followed by its children's findings, and nothing else. |
| VizProperties.LongArtifactsStructural | longArtifactsMultiTabs.py:4-28 | The root and child checks report exactly the four missing grid properties. |
| VizProperties.LongArtifactsMissing | longArtifactsMultiTabs.py:4-28 | Its missing properties are those four, in that order. |
| VizProperties.LongArtifactsKeys | longArtifactsMultiTabs.py:4-28 | Its root has exactly the keys `type`, `gap`, `style` and `children`. |
| VizProperties.FourLayoutPropsMissing | builder_utils/viz_previewer.py:400-403 | Any root with `type`, `gap` and `children` but none of the four grid properties gets those four errors. |
| VizProperties.LongArtifactsChildren | longArtifactsMultiTabs.py:12-27 | Its DataTable child passes the child checks. |
| VizProperties.CardContainerChildrenNotArray | multiTabs.py:20-34 | A child whose `children` is `""` gets exactly the "'children' property must be an array" error. |
| VizProperties.ListOfDocumentsRoot | builder_utils/viz_previewer.py:400-421 | A list root holding no strings reports all seven properties missing, then the "no attribute get" error. |
| Layout.Column | basic_data_bar_chart.py:148-153 | `iloc[:, j]` holds one cell per row: row `r`'s cell in column `j`. |
| Layout.DocumentPassesRootChecks | data_table_display.py:219-226 | The Document shell satisfies every root check. What is reported comes from its children alone. |
| Layout.DocumentHoldsRequired | data_table_display.py:219-226 | The shell holds all seven required properties. |
| Layout.NoneMissing | builder_utils/viz_previewer.py:400-403 | A root holding every required property gets no missing-property error. |
| Layout.MainContainerAndComponent | data_table_display.py:226-243 | With `MainContainer` first, the findings are those of the second component alone. |
| Layout.ChartOptionsAt | basic_data_bar_chart.py:184-188 | A chart layout's options sit at `children[1].options`. |
| Layout.ChartLayoutValid | basic_data_bar_chart.py:167-228 | Every chart layout of this shape passes all structural checks, without errors or warnings. |
| Layout.FormatDimensionName | data_table_display.py:260-270 | A fixed label for six dimension keys, `title()` otherwise. The label is empty only for an empty dimension, and an unmapped one keeps its length. |
| Layout.FormatMetricName | data_table_display.py:272-281 | A fixed label for five metric keys, `upper()` otherwise. The label always has the metric's length. |
| Layout.GetAxisFormat | basic_data_bar_chart.py:269-278 | The y-axis template is one of three, and it is the dollar template exactly for `sales`. |
| Layout.DimensionNameFallback | data_table_display.py:260-270 | An unmapped dimension is title-cased: the same letters up to case, and its own title case. |
| Layout.MetricNameKeepsLetters | data_table_display.py:272-281 | Every metric label, mapped or upper-cased, spells the metric up to case. It is empty iff the metric is. |
| Layout.AxisFormatShape | basic_data_bar_chart.py:269-278 | Every axis format, the five mapped ones and the default, is the currency prefix (`$` for sales) before `{value:` and the number spec (`,.1f` for acv and tdp, `,.0f` otherwise). |
| DataTableDisplay.ListDisplayShapes | data_table_display.py:251-258 | One item is itself, two are joined by " and ", and more are comma-joined with ", and " before the last. |
| DataTableDisplay.FormatListDisplay | data_table_display.py:251-258 | The display starts with the first item and ends with the last. |
| DataTableDisplay.ListDisplayMentionsAll | data_table_display.py:251-258 | Every item occurs in the display. |
| DataTableDisplay.LongListMentions | data_table_display.py:251-258 | With three or more items, each item and the last one occur in the Oxford-comma display. |
| DataTableDisplay.DimensionColumns | data_table_display.py:123-131 | The loop maps `max_time_month` to `month` and keeps every other dimension, position by position. No `max_time_month` is left. |
| DataTableDisplay.MetricFor | data_table_display.py:198-202 | The metric found is the first whose label equals the header. None is found iff no label matches. |
| DataTableDisplay.FormatMetricValue | data_table_display.py:283-295 | A missing value is "N/A". A sales value starts with `$`. |
| DataTableDisplay.FindMetric | data_table_display.py:198-202 | The search loop with `break` finds that first match. |
| DataTableDisplay.MetricValueMatchesAxis | data_table_display.py:283-295 | A cell value gets the same currency prefix and number spec as the metric's axis labels. |
| DataTableDisplay.FormatCell | data_table_display.py:195-212 | A missing cell is "N/A". A non-metric column shows `str(cell)`. A metric column is formatted with the first requested metric whose label is the header. |
| DataTableDisplay.CollidingLabelsFirstWins | data_table_display.py:198-204 | When two requested metrics share a label ("ACV" and "acv"), the one listed first decides the number format. |
| DataTableDisplay.MetricColumnChoice | data_table_display.py:198-204 | The metric branch is taken iff some non-empty metric's label equals the header. For an empty metric name the `if original_metric` test is false. |
| DataTableDisplay.FormattedTable | data_table_display.py:192-213 | The formatted table has the frame's shape. Each cell is that cell formatted under its column's header. |
| DataTableDisplay.FormatRow | data_table_display.py:194-212 | The inner loop formats each cell of a row under its header. |
| DataTableDisplay.FormatRows | data_table_display.py:192-213 | The nested loops yield the formatted table. |
| DataTableDisplay.TableData | data_table_display.py:241 | The `data` array has one array of strings per formatted row. |
| DataTableDisplay.CreateDataTable | data_table_display.py:184-249 | Titled "Data Table". The layout is the serialised Document with the DataTable. |
| DataTableDisplay.DataTableShape | data_table_display.py:236-242 | The table's `columns` are the frame's labels. Its `data` are the formatted rows. |
| DataTableDisplay.DataTableLayoutValid | data_table_display.py:219-244 | The data-table layout passes every structural check. |
| BasicDataBarChart.MetricNames | basic_data_bar_chart.py:164 | One label per metric, in order. |
| BasicDataBarChart.PromptIsLowerTitle | basic_data_bar_chart.py:161-164 | The prompt's metric phrase is the chart title's metric phrase lower-cased. |
| BasicDataBarChart.OxfordCommaOnly | basic_data_bar_chart.py:70-73 | For one or two metrics the two list styles agree. For more, the table's style has a comma where the bar chart's "and" list has none. |
| BasicDataBarChart.MetricFormatShape | basic_data_bar_chart.py:258-278 | The tooltip and axis formats put the same currency prefix and number spec in their two templates. |
| BasicDataBarChart.GetMetricFormat | basic_data_bar_chart.py:258-267 | The tooltip template is one of three, and it is the dollar template exactly for `sales`. |
| BasicDataBarChart.BarSeries | basic_data_bar_chart.py:151-158 | One series per metric. |
| BasicDataBarChart.BuildSeries | basic_data_bar_chart.py:151-158 | The loop builds exactly that series list. |
| BasicDataBarChart.CreateBarChart | basic_data_bar_chart.py:144-233 | Titled "Bar Chart". The layout is the serialised Document with the SalesChart. |
| BasicDataBarChart.BarOptionsAt | basic_data_bar_chart.py:184-188 | The chart options sit at `children[1].options`. |
| BasicDataBarChart.BarChartSeries | basic_data_bar_chart.py:152-158 | Series `i` is named after metric `i` and holds column `i + 1`. `colorByPoint` holds iff there is one metric. |
| BasicDataBarChart.SeriesEntryFields | basic_data_bar_chart.py:154-158 | The fields of one series entry. |
| BasicDataBarChart.BarChartFlags | basic_data_bar_chart.py:213-221 | The legend is on iff there are several metrics. Data labels are on iff there is one. |
| BasicDataBarChart.BarChartTitles | basic_data_bar_chart.py:161-200 | The title is "Top {rows} {dimension label} by {metric labels}". The x axis holds the first column under the dimension label. |
| BasicDataBarChart.BarChartYAxis | basic_data_bar_chart.py:202-208 | One metric: its label and axis format. Several: "Values" and `{value:,.0f}`. |
| BasicDataBarChart.BarChartLayoutValid | basic_data_bar_chart.py:167-228 | The bar-chart layout passes every structural check. |
| TimeSeriesLineChart.LineDimensionNameDiffers | time_series_line_chart.py:252-261 | Labels agree with the other skills except at `max_time_month`. The line chart title-cases it to "Max_Time_Month" where the others say "Month". |
| TimeSeriesLineChart.LineDimensionName | time_series_line_chart.py:252-261 | This file's own five-key label table with the `title()` fallback. The label is empty only for an empty dimension, and an unmapped one keeps its length. |
| TimeSeriesLineChart.TimeExpression | time_series_line_chart.py:104-109 | The SQL time expression is the `month` column or the quarter or year expression. |
| TimeSeriesLineChart.TimeExpressionMonthByDefault | time_series_line_chart.py:104-109 | The raw `month` column is used iff the period is neither `quarter` nor `year`. |
| TimeSeriesLineChart.LineSeries | time_series_line_chart.py:164-173 | One line per column after the first, line `i` built from column `i + 1`. |
| TimeSeriesLineChart.BuildLineSeries | time_series_line_chart.py:167-173 | The loop builds exactly that list. |
| TimeSeriesLineChart.CreateLineChart | time_series_line_chart.py:159-250 | Titled "Time Series Line Chart". The layout is the serialised Document with the TimeSeriesChart. |
| TimeSeriesLineChart.LineOptionsAt | time_series_line_chart.py:198-202 | The chart options sit at `children[1].options`. |
| TimeSeriesLineChart.LineChartSeries | time_series_line_chart.py:241 | The options carry the series list. It has as many lines as the prompt's `unique_lines`. |
| TimeSeriesLineChart.LineSeriesLine | time_series_line_chart.py:168-173 | Line `i` is named `str` of column `i + 1`'s label and holds that column. |
| TimeSeriesLineChart.LineChartTitles | time_series_line_chart.py:176-222 | The title is "{metric} Trends by {dimension} Over Time". The x axis holds the periods under the capitalised period name. The y axis holds the metric label and its axis format. |
| TimeSeriesLineChart.LineChartFlags | time_series_line_chart.py:227-234 | The legend is always on and data labels always off. |
| TimeSeriesLineChart.LineChartLayoutValid | time_series_line_chart.py:181-245 | The line-chart layout passes every structural check. |
| ExecutorIntegration.StartsObjectIsStripStartsWith | builder_utils/tests/test_executor_integration.py:133 | The opening-line test is `line.strip().startswith('{')`. |
| ExecutorIntegration.ExtractJsonLines | builder_utils/tests/test_executor_integration.py:128-141 | The loop with `break` collects exactly the declarative `JsonLines`. |
| ExecutorIntegration.FirstStart | builder_utils/tests/test_executor_integration.py:133-136 | Collection starts at the first opening line; no earlier line is taken. |
| ExecutorIntegration.FirstClose | builder_utils/tests/test_executor_integration.py:137-141 | The end is the first later line that does not open an object and leaves the running brace count at most 0. |
| ExecutorIntegration.JsonLines | builder_utils/tests/test_executor_integration.py:128-141 | Nothing is taken iff no line opens an object. A non-empty result begins with an opening line. |
| ExecutorIntegration.ScanPrefix | builder_utils/tests/test_executor_integration.py:132-141 | After any number of lines, the scan's variables match the declarative description: untouched, collecting with the running count, or stopped. |
| ExecutorIntegration.ExpectedStep | builder_utils/tests/test_executor_integration.py:133-141 | The description advances by one line exactly as the loop body does. |
| ExecutorIntegration.StoppedStays | builder_utils/tests/test_executor_integration.py:140-141 | After the `break`, further lines change nothing. |
| ExecutorIntegration.ScanCollects | builder_utils/tests/test_executor_integration.py:132-141 | The scan over all lines collects `JsonLines`. |
| ExecutorIntegration.PrettyObjectTaken | builder_utils/tests/test_executor_integration.py:132-141 | A pretty-printed object after other output is taken from `{` to `}`; the following line is left out. |
| ExecutorIntegration.OneLineObjectTakesNextLine | builder_utils/tests/test_executor_integration.py:133-136 | A balanced one-line object never triggers the stop test, so the next line is taken too. |
| ExecutorIntegration.ReadTestResult | builder_utils/tests/test_executor_integration.py:121-156 | The method with its scanning loop returns exactly `TestResult`: the parsed object when the marker, an opening line and a successful `loads` are all present, otherwise the fallback. |
| ExecutorIntegration.TestResult | builder_utils/tests/test_executor_integration.py:121-156 | Any result other than the fallback requires the marker in the output and is a value `loads` returned. |
| ExecutorIntegration.NoMarkerFallback | builder_utils/tests/test_executor_integration.py:150-156 | Without the marker the fallback result is returned. |
| ExecutorIntegration.NoObjectFallback | builder_utils/tests/test_executor_integration.py:128-149 | With the marker but no opening line, the fallback result is returned. |
| ExecutorIntegration.LoadedResult | builder_utils/tests/test_executor_integration.py:143-146 | When `json.loads` accepts the collected text, its value is returned. |
| ExecutorIntegration.LoadedText | builder_utils/tests/test_executor_integration.py:124-145 | The text handed to `json.loads` is the collected lines newline-joined, nothing added or removed. Splitting it gives them back, the first is an opening line, and it lies within what follows the marker. |
| ExecutorIntegration.TakenText | builder_utils/tests/test_executor_integration.py:143-144 | The same for any text split on newlines. |
| ExecutorIntegration.SliceRoundTrip | builder_utils/tests/test_executor_integration.py:144 | Separator-free lines, joined and split again, come back unchanged. |
| ExecutorIntegration.JoinSliceContained | builder_utils/tests/test_executor_integration.py:144 | A contiguous run of lines, joined, lies within all the lines joined. |
| ExecutorIntegration.FallbackFields | builder_utils/tests/test_executor_integration.py:150-156 | `success` holds iff the output contains "✅" and no "❌". `errors` is empty iff stderr is; otherwise its entries are newline-free and rejoin to stderr. The output and the fixed summary are carried. |
| Strings.JoinSplit | builder_utils/tests/test_executor_integration.py:155 | Joining `s.split(c)` with `c` gives `s` back. |
| Strings.SplitJoin | builder_utils/tests/test_executor_integration.py:144 | Splitting joined pieces that lack the separator gives the pieces back. |
| Strings.SplitPieces | builder_utils/tests/test_executor_integration.py:127 | No piece of a split contains the separator. |
| Strings.IndexOf | builder_utils/tests/test_executor_integration.py:124 | `find` yields the first position where the marker occurs. |
| Strings.LowerJoin | basic_data_bar_chart.py:73 | Lower-casing a joined list is joining the lower-cased items. |
| Strings.TitleIdempotent | data_table_display.py:270 | `title()` of a title-cased string changes nothing. |
| Strings.StripStartsWith | builder_utils/tests/test_executor_integration.py:133 | `strip().startswith(c)` for a non-space `c` depends only on the left trim. |
| Json.GetFirst | builder_utils/viz_previewer.py:406 | `Get` yields a member's value when no earlier member has its key. This covers every member of the distinct-key dicts `json.loads` returns. |

## Left out

- `wire_layout` and template binding: foreign code in the skill framework.
  Its behaviour is not visible, so it is not modelled.
- Server, browser and filesystem code of viz_previewer.py: the preview
  server, the Playwright browser test, temporary files, importlib loading,
  result printing and the `__main__` blocks, all I/O. The duplicate
  definitions at viz_previewer.py:784-922 are the same functions again.
- `test_skill_visualization` after the JSON stage: preview generation and
  the browser test are I/O. The model returns the warnings that stage
  passes on.
- `json.loads` and `json.dumps`: library calls, modelled as parameters.
  `json.loads` returns a parse result (`Parsed`) for the validator and an
  `Option` for the runner. Floating-point JSON numbers are not modelled;
  integers are.
- Python's Unicode case tables: `lower`, `upper`, `title` and `capitalize`
  map ASCII letters only. `isspace` follows Python's list of white-space
  characters.
- `str(value)` of a cell and `repr`-style rendering in messages: `Show`
  renders strings, integers, booleans and `None`. Characters are not
  escaped inside nested values.
- DataTableDisplay.FormatMetricValue: float formatting with `,.0f` and
  `,.1f` is a `render` parameter. The model fixes which spec and prefix
  each metric gets, not the digits. The source builds all five formatted
  strings before choosing one (data_table_display.py:288-294), so a
  non-numeric cell in a metric column raises `ValueError` there, and
  `create_data_table` does not catch it. The model renders such a cell
  instead.
- All database, SQL and environment code: `get_table_data`,
  `get_chart_data` and `get_time_series_data`, beyond the modelled column
  map and period lookup. The same goes for execute_sql.py,
  get_dataset_metadata.py and sync_repo.py.
- The skill entry points (`data_table_display`, `basic_data_bar_chart`,
  `time_series_line_chart`): argument parsing, export data and prompt text.
  The prompt's list phrases, metric phrase and line count are modelled; the
  surrounding sentence is not. `time_series_line_chart` reads
  `skill_input.arguments.time_period` (time_series_line_chart.py:42), a
  parameter its skill declaration (lines 11-30) does not list; the model
  takes the period as an ordinary argument of the builder.
- Json.Get: for a repeated key it takes the first member, while
  `json.loads` keeps the last value. The `loads` parameters are not
  constrained to results with distinct keys (`DistinctKeys`), so the
  validator's model also accepts parse results `json.loads` never returns.
- `create_data_table`'s `dimensions`, `sort_by` and `sort_order`
  parameters: the function never reads them.
- TimeSeriesLineChart.LineFrame requires distinct column labels. With a
  duplicated label, pandas' `data[label]` returns a frame rather than a
  column, which this model does not represent.
- BasicDataBarChart.ChartFrame requires at least one metric and at least
  one more column than metrics. The source indexes `data.iloc[:, i + 1]`
  and `metrics[-1]` (basic_data_bar_chart.py:164), and would raise an
  `IndexError` without them; that failure is not modelled.
- The generated test-script text and the running of the script by
  `FileExecutor` in test_executor_integration.py: the captured stdout and
  stderr are parameters. Any exception other than one from `json.loads`
  cannot arise in the modelled lines.
- py_ex.py, run_skill.py, run_all_tests.py and the remaining test files:
  subprocesses, importlib and globbing.
