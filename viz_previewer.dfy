/**
 * The JSON-layout validator of the visualization tester: structural checks on
 * a layout's root and its direct children, the raw-text scan for embedded
 * JavaScript functions, the (uncalled) Highcharts formatter walk, and the
 * classification of browser console messages.
 *
 * Every check has two forms: a function giving the messages it produces (the
 * specification) and a method that appends them one at a time to a shared
 * `Diagnostics` object, as the source's helpers append to the caller's
 * `errors` and `warnings` lists.
 */
module VizPreviewer {
  import opened Strings
  import opened Json

  // ---------------------------------------------------------------- results

  datatype ConsoleLog = ConsoleLog(kind: string, text: string, location: string)

  /** The tester's result record; `performance_metrics` is always `{}` on the paths modelled. */
  datatype ValidationResult = ValidationResult(
    success: bool,
    errors: seq<string>,
    warnings: seq<string>,
    consoleLogs: seq<ConsoleLog>)

  /** A skill visualization: a title and the layout as JSON text. */
  datatype SkillVisualization = SkillVisualization(title: string, layout: string)

  /** Errors and warnings in the order a check appends them. */
  datatype Findings = Findings(errors: seq<string>, warnings: seq<string>) {
    function Then(next: Findings): Findings
    {
      Findings(errors + next.errors, warnings + next.warnings)
    }
  }

  const NoFindings := Findings([], [])

  /** Appending `f.Then(g)` to lists is appending `f`, then `g`. */
  lemma ThenAppend(e: seq<string>, w: seq<string>, f: Findings, g: Findings)
    ensures e + f.Then(g).errors == e + f.errors + g.errors
    ensures w + f.Then(g).warnings == w + f.warnings + g.warnings
  {
  }

  function Error(msg: string): Findings { Findings([msg], []) }
  function Warning(msg: string): Findings { Findings([], [msg]) }

  /** The two lists the source threads through its checks, appended in place. */
  class Diagnostics {
    var errors: seq<string>
    var warnings: seq<string>

    constructor ()
      ensures errors == [] && warnings == []
    {
      errors, warnings := [], [];
    }

    method AddError(msg: string)
      modifies this
      ensures errors == old(errors) + [msg] && warnings == old(warnings)
    {
      errors := errors + [msg];
    }

    method AddWarning(msg: string)
      modifies this
      ensures warnings == old(warnings) + [msg] && errors == old(errors)
    {
      warnings := warnings + [msg];
    }
  }

  // ------------------------------------------------- root-level checks (spec)

  const RequiredProps: seq<string> :=
    ["type", "rows", "columns", "rowHeight", "colWidth", "gap", "children"]

  function MissingPropMessage(prop: string): string
  {
    "Missing required Document property: " + prop
  }

  /** Python's class name of a parsed value, as exception messages print it. */
  function TypeName(v: Json): string
  {
    match v
    case JNull => "NoneType"
    case JBool(_) => "bool"
    case JInt(_) => "int"
    case JStr(_) => "str"
    case JArr(_) => "list"
    case JObj(_) => "dict"
  }

  /** A root on which `prop in root` works: a dict, a string or a list. */
  predicate Iterable(v: Json)
  {
    v.JObj? || v.JStr? || v.JArr?
  }

  /** Python `key in root`: a key of a dict, a substring of a string, an element of a list. */
  predicate Contained(key: string, root: Json)
    requires Iterable(root)
  {
    match root
    case JObj(_) => HasKey(root, key)
    case JStr(s) => Contains(s, key)
    case JArr(items) => JStr(key) in items
  }

  /** The errors of the required-property loop over the first `k` properties. */
  function MissingProps(root: Json, k: nat): seq<string>
    requires Iterable(root) && k <= |RequiredProps|
  {
    if k == 0 then []
    else
      var prop := RequiredProps[k - 1];
      MissingProps(root, k - 1) + (if Contained(prop, root) then [] else [MissingPropMessage(prop)])
  }

  function RootTypeMessage(t: Option<Json>): string
  {
    "Root type must be 'Document', got: " + (match t case None => "None" case Some(v) => Show(v))
  }

  function RootTypeErrors(root: Json): seq<string>
  {
    if Get(root, "type") == Some(JStr("Document")) then [] else [RootTypeMessage(Get(root, "type"))]
  }

  const ChildrenNotArrayMessage := "Children must be an array, not a string or other type"

  function ChildNotObjectMessage(i: nat): string
  {
    "Child " + IntToString(i) + " must be an object"
  }

  function ChildMissingTypeMessage(i: nat): string
  {
    "Child " + IntToString(i) + " missing required 'type' property"
  }

  function ChildChildrenMessage(i: nat): string
  {
    "Child " + IntToString(i) + " 'children' property must be an array"
  }

  function ChartMissingOptionsMessage(i: nat): string
  {
    "HighchartsChart " + IntToString(i) + " missing 'options' property"
  }

  /** The checks on child number `i` of the root's `children` list. */
  function ChildFindings(i: nat, child: Json): Findings
  {
    if !child.JObj? then Error(ChildNotObjectMessage(i))
    else
      Findings(
        (if HasKey(child, "type") then [] else [ChildMissingTypeMessage(i)])
        + (if HasKey(child, "children") && !Get(child, "children").value.JArr? then [ChildChildrenMessage(i)] else []),
        if Get(child, "type") == Some(JStr("HighchartsChart")) && !HasKey(child, "options")
        then [ChartMissingOptionsMessage(i)] else [])
  }

  /** Findings for the first `k` children. */
  function ChildListFindings(items: seq<Json>, k: nat): Findings
    requires k <= |items|
  {
    if k == 0 then NoFindings else ChildListFindings(items, k - 1).Then(ChildFindings(k - 1, items[k - 1]))
  }

  /** `_validate_children_structure`: one level deep, never into grandchildren. */
  function ChildrenFindings(children: Json): Findings
  {
    if children.JArr? then ChildListFindings(children.items, |children.items|)
    else Error(ChildrenNotArrayMessage)
  }

  /** Everything checked on a dict root except the raw-text scan. */
  function StructuralFindings(root: Json): Findings
    requires root.JObj?
  {
    Findings(MissingProps(root, |RequiredProps|) + RootTypeErrors(root), [])
      .Then(if HasKey(root, "children") then ChildrenFindings(Get(root, "children").value) else NoFindings)
  }

  const FunctionsInJsonMessage := "JavaScript functions found in JSON - use Highcharts template strings instead"

  function TextFindings(layout: string): Findings
  {
    if Contains(layout, "function(") || Contains(layout, "function (") then Error(FunctionsInJsonMessage)
    else NoFindings
  }

  /** What `str(e)` of the `AttributeError` raised by `.get` on a non-dict says. */
  function NoGetMessage(typeName: string): string
  {
    "Layout validation error: '" + typeName + "' object has no attribute 'get'"
  }

  /** What `str(e)` of the `TypeError` raised by `in` on a non-container says. */
  function NotIterableMessage(typeName: string): string
  {
    "Layout validation error: argument of type '" + typeName + "' is not iterable"
  }

  /**
   * A root that is not a dict raises inside the `try`: an int, bool or null at
   * the first `in` test, a string or list at `.get` after the property loop.
   */
  function NonDictRootFindings(root: Json): Findings
    requires !root.JObj?
  {
    if Iterable(root) then
      Findings(MissingProps(root, |RequiredProps|)
        + [NoGetMessage(TypeName(root))], [])
    else Error(NotIterableMessage(TypeName(root)))
  }

  /** All messages of `test_visualization_json` for layout text whose parse is `parsed`. */
  function JsonFindings(layout: string, parsed: Parsed): Findings
  {
    match parsed
    case Err(m) => Error("Invalid JSON in layout: " + m)
    case Ok(root) => RootFindings(layout, root)
  }

  /** The messages for a layout text that parses to `root`. */
  function RootFindings(layout: string, root: Json): Findings
  {
    if root.JObj? then StructuralFindings(root).Then(TextFindings(layout)) else NonDictRootFindings(root)
  }

  // ---------------------------------------------- root-level checks (methods)

  method ValidateChildrenStructure(children: Json, d: Diagnostics)
    modifies d
    ensures d.errors == old(d.errors) + ChildrenFindings(children).errors
    ensures d.warnings == old(d.warnings) + ChildrenFindings(children).warnings
  {
    if !children.JArr? {
      d.AddError(ChildrenNotArrayMessage);
      return;
    }
    var items := children.items;
    for i := 0 to |items|
      invariant d.errors == old(d.errors) + ChildListFindings(items, i).errors
      invariant d.warnings == old(d.warnings) + ChildListFindings(items, i).warnings
    {
      assert ChildListFindings(items, i + 1) == ChildListFindings(items, i).Then(ChildFindings(i, items[i]));
      ThenAppend(old(d.errors), old(d.warnings), ChildListFindings(items, i), ChildFindings(i, items[i]));
      CheckChild(i, items[i], d);
    }
  }

  /** The body of the loop over the children: the checks on child number `i`. */
  method CheckChild(i: nat, child: Json, d: Diagnostics)
    modifies d
    ensures d.errors == old(d.errors) + ChildFindings(i, child).errors
    ensures d.warnings == old(d.warnings) + ChildFindings(i, child).warnings
  {
    if !child.JObj? {
      d.AddError(ChildNotObjectMessage(i));
      return;
    }
    if !HasKey(child, "type") {
      d.AddError(ChildMissingTypeMessage(i));
    }
    if HasKey(child, "children") && !Get(child, "children").value.JArr? {
      d.AddError(ChildChildrenMessage(i));
    }
    if Get(child, "type") == Some(JStr("HighchartsChart")) && !HasKey(child, "options") {
      d.AddWarning(ChartMissingOptionsMessage(i));
    }
  }

  /** `test_visualization_json`, given what `json.loads` makes of the layout text. */
  method TestVisualizationJson(viz: SkillVisualization, loads: string -> Parsed) returns (r: ValidationResult)
    ensures r.errors == JsonFindings(viz.layout, loads(viz.layout)).errors
    ensures r.warnings == JsonFindings(viz.layout, loads(viz.layout)).warnings
    ensures r.success <==> r.errors == []
    ensures r.consoleLogs == []
  {
    var d := new Diagnostics();
    match loads(viz.layout) {
    case Err(m) =>
      d.AddError("Invalid JSON in layout: " + m);
    case Ok(root) =>
      ValidateRoot(viz.layout, root, d);
    }
    r := ValidationResult(|d.errors| == 0, d.errors, d.warnings, []);
  }

  /** The `try` block of `test_visualization_json` once `json.loads` has succeeded. */
  method ValidateRoot(layout: string, root: Json, d: Diagnostics)
    modifies d
    requires d.errors == [] && d.warnings == []
    ensures d.errors == RootFindings(layout, root).errors
    ensures d.warnings == RootFindings(layout, root).warnings
  {
    if !Iterable(root) {
      d.AddError(NotIterableMessage(TypeName(root)));
      return;
    }
    CheckRequiredProps(root, d);
    if !root.JObj? {
      d.AddError(NoGetMessage(TypeName(root)));
      return;
    }
    if Get(root, "type") != Some(JStr("Document")) {
      d.AddError(RootTypeMessage(Get(root, "type")));
    }
    assert d.errors == MissingProps(root, |RequiredProps|) + RootTypeErrors(root) && d.warnings == [];
    if HasKey(root, "children") {
      ValidateChildrenStructure(Get(root, "children").value, d);
    }
    ghost var structural := StructuralFindings(root);
    assert d.errors == structural.errors && d.warnings == structural.warnings;
    if Contains(layout, "function(") || Contains(layout, "function (") {
      d.AddError(FunctionsInJsonMessage);
    }
  }

  /** The loop over the required Document properties. */
  method CheckRequiredProps(root: Json, d: Diagnostics)
    modifies d
    requires Iterable(root)
    ensures d.errors == old(d.errors) + MissingProps(root, |RequiredProps|)
    ensures d.warnings == old(d.warnings)
  {
    for k := 0 to |RequiredProps|
      invariant d.errors == old(d.errors) + MissingProps(root, k) && d.warnings == old(d.warnings)
    {
      if !Contained(RequiredProps[k], root) {
        d.AddError(MissingPropMessage(RequiredProps[k]));
      }
    }
  }

  // ------------------------------------------- Highcharts formatter walk (spec)

  function FormatterPath(objPath: string, key: string): string
  {
    if objPath != "" then objPath + "." + key else key
  }

  function FormatterFunctionMessage(viz: int, at: string): string
  {
    "Viz " + IntToString(viz) + ": Formatter function at " + at + " - use template strings instead"
  }

  function FormatterSyntaxMessage(viz: int, at: string): string
  {
    "Viz " + IntToString(viz) + ": Formatter at " + at + " may need template string syntax"
  }

  function ItemPath(objPath: string, k: nat): string
  {
    objPath + "[" + IntToString(k) + "]"
  }

  /** The check on one string-valued `formatter` member. */
  function FormatterEntry(value: string, at: string, viz: int): Findings
  {
    if Contains(Lower(value), "function") then Error(FormatterFunctionMessage(viz, at))
    else if '{' !in value && '}' !in value then Warning(FormatterSyntaxMessage(viz, at))
    else NoFindings
  }

  /** `check_formatters(obj, objPath)` inside `_check_formatter_issues(options, path, ...)`. */
  function Formatters(obj: Json, objPath: string, path: string, viz: int): Findings
    decreases obj, 1
  {
    match obj
    case JObj(ms) => FormattersUpTo(obj, |ms|, objPath, path, viz)
    case JArr(items) => FormattersUpTo(obj, |items|, objPath, path, viz)
    case _ => NoFindings
  }

  /** The first `k` members of a dict, or the first `k` items of a list. */
  function FormattersUpTo(obj: Json, k: nat, objPath: string, path: string, viz: int): Findings
    requires obj.JObj? || obj.JArr?
    requires k <= (if obj.JObj? then |obj.members| else |obj.items|)
    decreases obj, 0, k
  {
    if k == 0 then NoFindings
    else
      var last :=
        if obj.JObj? then MemberFormatters(obj.members[k - 1].0, obj.members[k - 1].1, objPath, path, viz)
        else Formatters(obj.items[k - 1], ItemPath(objPath, k - 1), path, viz);
      FormattersUpTo(obj, k - 1, objPath, path, viz).Then(last)
  }

  /** The check on one `key: value` member of a dict at `objPath`. */
  function MemberFormatters(key: string, value: Json, objPath: string, path: string, viz: int): Findings
    decreases value, 2
  {
    var current := FormatterPath(objPath, key);
    if key == "formatter" && value.JStr? then FormatterEntry(value.s, path + "." + current, viz)
    else if value.JObj? || value.JArr? then Formatters(value, current, path, viz)
    else NoFindings
  }

  // ----------------------------------------- Highcharts component walk (spec)

  function MissingOptionsMessage(viz: int, path: string): string
  {
    "Viz " + IntToString(viz) + ": HighchartsChart at " + path + " missing options"
  }

  function ChartFindings(c: Json, path: string, viz: int): Findings
  {
    if Get(c, "type") == Some(JStr("HighchartsChart")) then
      var options := GetOr(c, "options", JObj([]));
      Formatters(options, "", path + ".options", viz).Then(OptionsWarning(options, path, viz))
    else NoFindings
  }

  function OptionsWarning(options: Json, path: string, viz: int): Findings
  {
    if Falsy(options) then Warning(MissingOptionsMessage(viz, path)) else NoFindings
  }

  /** `check_component(c, path)` in `_check_highcharts_config`. */
  function Component(c: Json, path: string, viz: int): Findings
    decreases c, 2
  {
    if !c.JObj? then NoFindings else ChartFindings(c, path, viz).Then(Nested(c, path, viz))
  }

  /** The walk into the `children` member of a dict, if it has one. */
  function Nested(c: Json, path: string, viz: int): Findings
    requires c.JObj?
    decreases c, 1
  {
    match Find(c.members, "children")
    case Some(k) => Children(c.members[k].1, path, viz)
    case None => NoFindings
  }

  /** The walk over a `children` value; anything but a list is skipped. */
  function Children(children: Json, path: string, viz: int): Findings
    decreases children, 1
  {
    if children.JArr? then ComponentsUpTo(children, |children.items|, path, viz) else NoFindings
  }

  function ChildPath(path: string, i: nat): string
  {
    path + ".children[" + IntToString(i) + "]"
  }

  function ComponentsUpTo(children: Json, k: nat, path: string, viz: int): Findings
    requires children.JArr? && k <= |children.items|
    decreases children, 0, k
  {
    if k == 0 then NoFindings
    else ComponentsUpTo(children, k - 1, path, viz).Then(Component(children.items[k - 1], ChildPath(path, k - 1), viz))
  }

  // ------------------------------------------------- Highcharts walks (methods)

  method CheckFormatters(obj: Json, objPath: string, path: string, viz: int, d: Diagnostics)
    modifies d
    decreases obj, 0
    ensures d.errors == old(d.errors) + Formatters(obj, objPath, path, viz).errors
    ensures d.warnings == old(d.warnings) + Formatters(obj, objPath, path, viz).warnings
  {
    if obj.JObj? {
      var ms := obj.members;
      for k := 0 to |ms|
        invariant d.errors == old(d.errors) + FormattersUpTo(obj, k, objPath, path, viz).errors
        invariant d.warnings == old(d.warnings) + FormattersUpTo(obj, k, objPath, path, viz).warnings
      {
        assert FormattersUpTo(obj, k + 1, objPath, path, viz)
          == FormattersUpTo(obj, k, objPath, path, viz).Then(MemberFormatters(ms[k].0, ms[k].1, objPath, path, viz));
        ThenAppend(old(d.errors), old(d.warnings), FormattersUpTo(obj, k, objPath, path, viz),
          MemberFormatters(ms[k].0, ms[k].1, objPath, path, viz));
        CheckMemberFormatters(ms[k].0, ms[k].1, objPath, path, viz, d);
      }
    } else if obj.JArr? {
      var items := obj.items;
      for k := 0 to |items|
        invariant d.errors == old(d.errors) + FormattersUpTo(obj, k, objPath, path, viz).errors
        invariant d.warnings == old(d.warnings) + FormattersUpTo(obj, k, objPath, path, viz).warnings
      {
        assert FormattersUpTo(obj, k + 1, objPath, path, viz)
          == FormattersUpTo(obj, k, objPath, path, viz).Then(Formatters(items[k], ItemPath(objPath, k), path, viz));
        ThenAppend(old(d.errors), old(d.warnings), FormattersUpTo(obj, k, objPath, path, viz),
          Formatters(items[k], ItemPath(objPath, k), path, viz));
        CheckFormatters(items[k], ItemPath(objPath, k), path, viz, d);
      }
    }
  }

  method CheckMemberFormatters(key: string, value: Json, objPath: string, path: string, viz: int, d: Diagnostics)
    modifies d
    decreases value, 1
    ensures d.errors == old(d.errors) + MemberFormatters(key, value, objPath, path, viz).errors
    ensures d.warnings == old(d.warnings) + MemberFormatters(key, value, objPath, path, viz).warnings
  {
    var current := FormatterPath(objPath, key);
    if key == "formatter" && value.JStr? {
      var at := path + "." + current;
      if Contains(Lower(value.s), "function") {
        d.AddError(FormatterFunctionMessage(viz, at));
      } else if '{' !in value.s && '}' !in value.s {
        d.AddWarning(FormatterSyntaxMessage(viz, at));
      }
    } else if value.JObj? || value.JArr? {
      CheckFormatters(value, current, path, viz, d);
    }
  }

  /** `_check_formatter_issues`. */
  method CheckFormatterIssues(options: Json, path: string, viz: int, d: Diagnostics)
    modifies d
    ensures d.errors == old(d.errors) + Formatters(options, "", path, viz).errors
    ensures d.warnings == old(d.warnings) + Formatters(options, "", path, viz).warnings
  {
    CheckFormatters(options, "", path, viz, d);
  }

  method CheckComponent(c: Json, path: string, viz: int, d: Diagnostics)
    modifies d
    decreases c, 1
    ensures d.errors == old(d.errors) + Component(c, path, viz).errors
    ensures d.warnings == old(d.warnings) + Component(c, path, viz).warnings
  {
    if !c.JObj? {
      return;
    }
    CheckChart(c, path, viz, d);
    ThenAppend(old(d.errors), old(d.warnings), ChartFindings(c, path, viz), Nested(c, path, viz));
    var at := Find(c.members, "children");
    if at.Some? {
      CheckChildren(c.members[at.value].1, path, viz, d);
    }
  }

  method CheckChart(c: Json, path: string, viz: int, d: Diagnostics)
    modifies d
    ensures d.errors == old(d.errors) + ChartFindings(c, path, viz).errors
    ensures d.warnings == old(d.warnings) + ChartFindings(c, path, viz).warnings
  {
    if Get(c, "type") == Some(JStr("HighchartsChart")) {
      var options := GetOr(c, "options", JObj([]));
      CheckFormatterIssues(options, path + ".options", viz, d);
      ThenAppend(old(d.errors), old(d.warnings), Formatters(options, "", path + ".options", viz),
        OptionsWarning(options, path, viz));
      if Falsy(options) {
        d.AddWarning(MissingOptionsMessage(viz, path));
      }
    }
  }

  method CheckChildren(children: Json, path: string, viz: int, d: Diagnostics)
    modifies d
    decreases children, 0
    ensures d.errors == old(d.errors) + Children(children, path, viz).errors
    ensures d.warnings == old(d.warnings) + Children(children, path, viz).warnings
  {
    if children.JArr? {
      for i := 0 to |children.items|
        invariant d.errors == old(d.errors) + ComponentsUpTo(children, i, path, viz).errors
        invariant d.warnings == old(d.warnings) + ComponentsUpTo(children, i, path, viz).warnings
      {
        assert ComponentsUpTo(children, i + 1, path, viz)
          == ComponentsUpTo(children, i, path, viz).Then(Component(children.items[i], ChildPath(path, i), viz));
        ThenAppend(old(d.errors), old(d.warnings), ComponentsUpTo(children, i, path, viz),
          Component(children.items[i], ChildPath(path, i), viz));
        CheckComponent(children.items[i], ChildPath(path, i), viz, d);
      }
    }
  }

  /** `_check_highcharts_config`: the walk from the root, whose path is "root". */
  method CheckHighchartsConfig(layout: Json, viz: int, d: Diagnostics)
    modifies d
    ensures d.errors == old(d.errors) + Component(layout, "root", viz).errors
    ensures d.warnings == old(d.warnings) + Component(layout, "root", viz).warnings
  {
    CheckComponent(layout, "root", viz, d);
  }

  // ------------------------------------------------ console classification

  const ErrorPatterns: seq<string> := [
    "l.call is not a function", "Highcharts error", "Cannot read property", "TypeError",
    "ReferenceError", "SyntaxError", "Failed to load", "404", "500"]

  const WarningPatterns: seq<string> := ["deprecated", "warning", "fallback", "missing", "invalid"]

  /** Some pattern occurs in the text, both lower-cased. */
  predicate Matches(text: string, patterns: seq<string>)
  {
    exists j :: 0 <= j < |patterns| && Contains(Lower(text), Lower(patterns[j]))
  }

  /** One entry `prefix + text` per log of the given kind that matches some pattern. */
  function Classified(logs: seq<ConsoleLog>, kind: string, patterns: seq<string>, prefix: string): seq<string>
  {
    if |logs| == 0 then []
    else
      var log := logs[|logs| - 1];
      Classified(logs[..|logs| - 1], kind, patterns, prefix)
        + (if log.kind == kind && Matches(log.text, patterns) then [prefix + log.text] else [])
  }

  method ClassifyLogs(logs: seq<ConsoleLog>, kind: string, patterns: seq<string>, prefix: string)
    returns (out: seq<string>)
    ensures out == Classified(logs, kind, patterns, prefix)
  {
    out := [];
    for i := 0 to |logs|
      invariant out == Classified(logs[..i], kind, patterns, prefix)
    {
      assert logs[..i + 1][..i] == logs[..i];
      if logs[i].kind == kind {
        var lowered := Lower(logs[i].text);
        for j := 0 to |patterns|
          invariant forall q :: 0 <= q < j ==> !Contains(lowered, Lower(patterns[q]))
          invariant out == Classified(logs[..i], kind, patterns, prefix)
        {
          if Contains(lowered, Lower(patterns[j])) {
            out := out + [prefix + logs[i].text];
            break;
          }
        }
      }
    }
    assert logs[..|logs|] == logs;
  }

  /** `_check_for_visualization_errors`. */
  method CheckForVisualizationErrors(logs: seq<ConsoleLog>) returns (errors: seq<string>)
    ensures errors == Classified(logs, "error", ErrorPatterns, "Console Error: ")
  {
    errors := ClassifyLogs(logs, "error", ErrorPatterns, "Console Error: ");
  }

  /** `_check_for_visualization_warnings`. */
  method CheckForVisualizationWarnings(logs: seq<ConsoleLog>) returns (warnings: seq<string>)
    ensures warnings == Classified(logs, "warning", WarningPatterns, "Console Warning: ")
  {
    warnings := ClassifyLogs(logs, "warning", WarningPatterns, "Console Warning: ");
  }

  // ------------------------------------- JSON stage of test_skill_visualization

  /** Either the early failure result, or the warnings handed on to the browser stage. */
  datatype JsonStage = Rejected(result: ValidationResult) | Proceed(warnings: seq<string>)

  function Prefixed(i: nat, msgs: seq<string>): (r: seq<string>)
    ensures |r| == |msgs|
  {
    seq(|msgs|, k requires 0 <= k < |msgs| => "Viz " + IntToString(i) + ": " + msgs[k])
  }

  function ErrorsOf(viz: SkillVisualization, loads: string -> Parsed): seq<string>
  {
    JsonFindings(viz.layout, loads(viz.layout)).errors
  }

  function WarningsOf(viz: SkillVisualization, loads: string -> Parsed): seq<string>
  {
    JsonFindings(viz.layout, loads(viz.layout)).warnings
  }

  /** The messages of the first `k` lists, list `i` prefixed with "Viz i: ". */
  function PrefixedConcat(lists: seq<seq<string>>, k: nat): seq<string>
    requires k <= |lists|
  {
    if k == 0 then [] else PrefixedConcat(lists, k - 1) + Prefixed(k - 1, lists[k - 1])
  }

  lemma {:induction false} PrefixedConcatEmpty(lists: seq<seq<string>>, k: nat)
    requires k <= |lists|
    ensures PrefixedConcat(lists, k) == [] <==> forall i :: 0 <= i < k ==> lists[i] == []
  {
    if k > 0 {
      PrefixedConcatEmpty(lists, k - 1);
    }
  }

  function AllErrors(vizs: seq<SkillVisualization>, loads: string -> Parsed): seq<string>
  {
    PrefixedConcat(seq(|vizs|, i requires 0 <= i < |vizs| => ErrorsOf(vizs[i], loads)), |vizs|)
  }

  function AllWarnings(vizs: seq<SkillVisualization>, loads: string -> Parsed): seq<string>
  {
    PrefixedConcat(seq(|vizs|, i requires 0 <= i < |vizs| => WarningsOf(vizs[i], loads)), |vizs|)
  }

  /** Lines 183-200 of `test_skill_visualization`: validate every layout before any browser work. */
  method TestSkillVisualizationJson(vizs: seq<SkillVisualization>, loads: string -> Parsed)
    returns (stage: JsonStage)
    ensures stage.Rejected? <==> exists i :: 0 <= i < |vizs| && ErrorsOf(vizs[i], loads) != []
    ensures stage.Rejected? ==>
      stage.result == ValidationResult(false, AllErrors(vizs, loads), AllWarnings(vizs, loads), [])
    ensures stage.Proceed? ==> stage.warnings == AllWarnings(vizs, loads)
  {
    ghost var errorLists := seq(|vizs|, i requires 0 <= i < |vizs| => ErrorsOf(vizs[i], loads));
    ghost var warningLists := seq(|vizs|, i requires 0 <= i < |vizs| => WarningsOf(vizs[i], loads));
    var allErrors: seq<string> := [];
    var allWarnings: seq<string> := [];
    for i := 0 to |vizs|
      invariant allErrors == PrefixedConcat(errorLists, i)
      invariant allWarnings == PrefixedConcat(warningLists, i)
    {
      var result := TestVisualizationJson(vizs[i], loads);
      if !result.success {
        allErrors := allErrors + Prefixed(i, result.errors);
      }
      allWarnings := allWarnings + Prefixed(i, result.warnings);
    }
    PrefixedConcatEmpty(errorLists, |vizs|);
    assert forall i :: 0 <= i < |vizs| ==> errorLists[i] == ErrorsOf(vizs[i], loads);
    if allErrors != [] {
      stage := Rejected(ValidationResult(false, allErrors, allWarnings, []));
    } else {
      stage := Proceed(allWarnings);
    }
  }
}
