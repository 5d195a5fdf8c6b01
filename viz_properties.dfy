/**
 * What the layout validator promises, stated over its specification functions:
 * exactly one message per missing Document property, the two messages for a
 * missing `type`, children checked one level deep, the raw-text scan adding at
 * most one error, the formatter and component walks producing only their own
 * messages, and console classification giving at most one entry per log.
 */
module VizProperties {
  import opened Strings
  import opened Json
  import opened VizPreviewer

  // ---------------------------------------------------- required properties

  lemma MissingPropMessageInjective(p: string, q: string)
    ensures MissingPropMessage(p) == MissingPropMessage(q) <==> p == q
  {
    var pre := "Missing required Document property: ";
    if MissingPropMessage(p) == MissingPropMessage(q) {
      assert p == MissingPropMessage(p)[|pre|..];
      assert q == MissingPropMessage(q)[|pre|..];
    }
  }

  /** A property's message is reported exactly when that property was checked and is absent. */
  lemma {:induction false} MissingPropsHas(root: Json, k: nat, i: nat)
    requires Iterable(root) && k <= |RequiredProps| && i < |RequiredProps|
    ensures MissingPropMessage(RequiredProps[i]) in MissingProps(root, k)
      <==> i < k && !Contained(RequiredProps[i], root)
  {
    if k > 0 {
      MissingPropsHas(root, k - 1, i);
      MissingPropMessageInjective(RequiredProps[i], RequiredProps[k - 1]);
      RequiredPropsDistinct(i, k - 1);
      assert MissingProps(root, k) == MissingProps(root, k - 1)
        + (if Contained(RequiredProps[k - 1], root) then [] else [MissingPropMessage(RequiredProps[k - 1])]);
    }
  }

  /**
   * Each required property absent from the root gives exactly one
   * "Missing required Document property" error; a present one gives none.
   */
  lemma MissingPropsExact(root: Json, k: nat, i: nat)
    requires Iterable(root) && k <= |RequiredProps| && i < |RequiredProps|
    ensures multiset(MissingProps(root, k))[MissingPropMessage(RequiredProps[i])]
      == if i < k && !Contained(RequiredProps[i], root) then 1 else 0
  {
    MissingPropsHas(root, k, i);
    MissingPropsDistinct(root, k);
    DistinctCount(MissingProps(root, k), MissingPropMessage(RequiredProps[i]));
  }

  /** No property is reported twice. */
  lemma {:induction false} MissingPropsDistinct(root: Json, k: nat)
    requires Iterable(root) && k <= |RequiredProps|
    ensures Distinct(MissingProps(root, k))
  {
    if k > 0 {
      var prev := MissingProps(root, k - 1);
      MissingPropsDistinct(root, k - 1);
      if !Contained(RequiredProps[k - 1], root) {
        MissingPropsHas(root, k - 1, k - 1);
        DistinctSnoc(prev, MissingPropMessage(RequiredProps[k - 1]));
      }
    }
  }

  /** No message occurs twice. */
  predicate Distinct(s: seq<string>)
  {
    forall a, b :: 0 <= a < b < |s| ==> s[a] != s[b]
  }

  /** Appending a message not yet present keeps a list repeat-free. */
  lemma DistinctSnoc(s: seq<string>, x: string)
    requires Distinct(s) && x !in s
    ensures Distinct(s + [x])
  {
  }

  /** In a sequence without repeats every element occurs once. */
  lemma {:induction false} DistinctCount(s: seq<string>, x: string)
    requires Distinct(s)
    ensures multiset(s)[x] == if x in s then 1 else 0
  {
    if s != [] {
      var t := s[..|s| - 1];
      assert s == t + [s[|s| - 1]];
      assert Distinct(t);
      DistinctCount(t, x);
      assert multiset(s) == multiset(t) + multiset{s[|s| - 1]};
      assert s[|s| - 1] !in t;
    }
  }

  lemma RequiredPropsDistinct(a: nat, b: nat)
    requires a < |RequiredProps| && b < |RequiredProps|
    ensures RequiredProps[a] == RequiredProps[b] <==> a == b
  {
  }

  /** Every error of the property loop names a required property the root lacks. */
  lemma {:induction false} MissingPropsSound(root: Json, k: nat)
    requires Iterable(root) && k <= |RequiredProps|
    ensures forall e :: e in MissingProps(root, k) ==>
      exists i :: 0 <= i < k && !Contained(RequiredProps[i], root) && e == MissingPropMessage(RequiredProps[i])
  {
    if k > 0 {
      MissingPropsSound(root, k - 1);
    }
  }

  /** A root without `type` gets the missing-property error first and the root-type error naming `None`. */
  lemma MissingTypeTwoErrors(root: Json)
    requires root.JObj? && !HasKey(root, "type")
    ensures var errors := StructuralFindings(root).errors;
      var n := |MissingProps(root, |RequiredProps|)|;
      n < |errors| && errors[0] == MissingPropMessage("type")
      && errors[n] == RootTypeMessage(None)
  {
    MissingPropsExact(root, |RequiredProps|, 0);
    assert MissingProps(root, 1) == [MissingPropMessage("type")];
    MissingPropsPrefix(root, 1, |RequiredProps|);
  }

  lemma {:induction false} MissingPropsPrefix(root: Json, j: nat, k: nat)
    requires Iterable(root) && j <= k <= |RequiredProps|
    ensures MissingProps(root, j) <= MissingProps(root, k)
  {
    if j < k {
      MissingPropsPrefix(root, j, k - 1);
    }
  }

  /** A root whose `type` is anything but the string "Document" gets one error naming that value. */
  lemma RootTypeChecked(root: Json)
    requires root.JObj?
    ensures RootTypeErrors(root) == [] <==> Get(root, "type") == Some(JStr("Document"))
    ensures |RootTypeErrors(root)| <= 1
    ensures RootTypeErrors(root) != [] ==> RootTypeErrors(root) == [RootTypeMessage(Get(root, "type"))]
  {
  }

  // --------------------------------------------------------------- children

  /** A non-list `children` gives exactly one error and no per-child checks run. */
  lemma ChildrenNotArrayOneError(root: Json)
    requires root.JObj? && HasKey(root, "children") && !Get(root, "children").value.JArr?
    ensures StructuralFindings(root)
      == Findings(MissingProps(root, |RequiredProps|) + RootTypeErrors(root) + [ChildrenNotArrayMessage], [])
  {
  }

  /** Without `children`, no child check runs at all. */
  lemma NoChildrenNoChildChecks(root: Json)
    requires root.JObj? && !HasKey(root, "children")
    ensures StructuralFindings(root) == Findings(MissingProps(root, |RequiredProps|) + RootTypeErrors(root), [])
  {
  }

  /** Rewriting the value of one member keeps the position of every key. */
  lemma {:induction false} FindUpdate(ms: seq<(string, Json)>, k: nat, v: Json, key: string)
    requires k < |ms|
    ensures Find(ms[k := (ms[k].0, v)], key) == Find(ms, key)
  {
    var ns := ms[k := (ms[k].0, v)];
    if ms[0].0 != key && k > 0 {
      assert ns[1..] == ms[1..][k - 1 := (ms[k].0, v)];
      FindUpdate(ms[1..], k - 1, v, key);
    }
  }

  /**
   * The checks on a child never look below it: replacing a child's list of
   * grandchildren by any other list leaves its findings unchanged.
   */
  lemma ChildIgnoresGrandchildren(i: nat, ms: seq<(string, Json)>, k: nat, g: seq<Json>)
    requires k < |ms| && ms[k].1.JArr?
    ensures ChildFindings(i, JObj(ms)) == ChildFindings(i, JObj(ms[k := (ms[k].0, JArr(g))]))
  {
    var ns := ms[k := (ms[k].0, JArr(g))];
    forall key | true
      ensures Find(ns, key) == Find(ms, key)
    {
      FindUpdate(ms, k, JArr(g), key);
    }
    assert Get(JObj(ns), "children").Some? ==>
      (Get(JObj(ns), "children").value.JArr? == Get(JObj(ms), "children").value.JArr?);
    assert (Get(JObj(ns), "type") == Some(JStr("HighchartsChart")))
      == (Get(JObj(ms), "type") == Some(JStr("HighchartsChart")));
  }

  /** Children lists whose children are checked alike are checked alike as a whole. */
  lemma {:induction false} ChildListPointwise(xs: seq<Json>, ys: seq<Json>, k: nat)
    requires k <= |xs| == |ys|
    requires forall j :: 0 <= j < k ==> ChildFindings(j, xs[j]) == ChildFindings(j, ys[j])
    ensures ChildListFindings(xs, k) == ChildListFindings(ys, k)
  {
    if k > 0 {
      ChildListPointwise(xs, ys, k - 1);
      var f := ChildFindings(k - 1, xs[k - 1]);
      assert f == ChildFindings(k - 1, ys[k - 1]);
      assert ChildListFindings(xs, k) == ChildListFindings(xs, k - 1).Then(f);
    }
  }

  /** A child that is not a dict gives exactly one error and nothing else. */
  lemma NonObjectChild(i: nat, child: Json)
    requires !child.JObj?
    ensures ChildFindings(i, child) == Error(ChildNotObjectMessage(i))
  {
  }

  /** A HighchartsChart child without `options` is warned about, never rejected for it. */
  lemma ChartWithoutOptionsWarns(i: nat, child: Json)
    requires Get(child, "type") == Some(JStr("HighchartsChart")) && !HasKey(child, "options")
    ensures ChildFindings(i, child).warnings == [ChartMissingOptionsMessage(i)]
    ensures !HasKey(child, "children") ==> ChildFindings(i, child).errors == []
  {
  }

  /** Each child adds at most two errors and one warning. */
  lemma ChildBound(i: nat, child: Json)
    ensures |ChildFindings(i, child).errors| <= 2 && |ChildFindings(i, child).warnings| <= 1
  {
  }

  lemma {:induction false} ChildListBound(items: seq<Json>, k: nat)
    requires k <= |items|
    ensures |ChildListFindings(items, k).errors| <= 2 * k
    ensures |ChildListFindings(items, k).warnings| <= k
  {
    if k > 0 {
      ChildListBound(items, k - 1);
      ChildBound(k - 1, items[k - 1]);
    }
  }

  // ------------------------------------------------------------ raw text scan

  /** The text scan adds one error however many times a function literal occurs. */
  lemma TextScanOneError(layout: string)
    ensures |TextFindings(layout).errors| <= 1 && TextFindings(layout).warnings == []
    ensures TextFindings(layout).errors != [] <==>
      exists i :: 0 <= i <= |layout| && ("function(" <= layout[i..] || "function (" <= layout[i..])
  {
    ContainsAt(layout, "function(");
    ContainsAt(layout, "function (");
  }

  // ------------------------------------------------------------- Highcharts

  /** Every error is a formatter-function message of this visualization. */
  ghost predicate FunctionMessages(errors: seq<string>, viz: int)
  {
    forall e :: e in errors ==> exists at :: e == FormatterFunctionMessage(viz, at)
  }

  /** Every warning is a template-syntax or a missing-options message of this visualization. */
  ghost predicate SyntaxOrOptionsMessages(warnings: seq<string>, viz: int)
  {
    forall w :: w in warnings ==>
      (exists at :: w == FormatterSyntaxMessage(viz, at)) || (exists at :: w == MissingOptionsMessage(viz, at))
  }

  ghost predicate WalkMessages(f: Findings, viz: int)
  {
    FunctionMessages(f.errors, viz) && SyntaxOrOptionsMessages(f.warnings, viz)
  }

  lemma ThenWalkMessages(f: Findings, g: Findings, viz: int)
    requires WalkMessages(f, viz) && WalkMessages(g, viz)
    ensures WalkMessages(f.Then(g), viz)
  {
  }

  /** The formatter walk reports nothing but formatter messages; warnings are never template-syntax free. */
  lemma {:induction false} FormattersSound(obj: Json, objPath: string, path: string, viz: int)
    ensures WalkMessages(Formatters(obj, objPath, path, viz), viz)
    decreases obj, 1
  {
    match obj
    case JObj(ms) => FormattersUpToSound(obj, |ms|, objPath, path, viz);
    case JArr(items) => FormattersUpToSound(obj, |items|, objPath, path, viz);
    case _ =>
  }

  lemma {:induction false} FormattersUpToSound(obj: Json, k: nat, objPath: string, path: string, viz: int)
    requires obj.JObj? || obj.JArr?
    requires k <= (if obj.JObj? then |obj.members| else |obj.items|)
    ensures WalkMessages(FormattersUpTo(obj, k, objPath, path, viz), viz)
    decreases obj, 0, k
  {
    if k > 0 {
      FormattersUpToSound(obj, k - 1, objPath, path, viz);
      if obj.JObj? {
        MemberFormattersSound(obj.members[k - 1].0, obj.members[k - 1].1, objPath, path, viz);
        ThenWalkMessages(FormattersUpTo(obj, k - 1, objPath, path, viz),
          MemberFormatters(obj.members[k - 1].0, obj.members[k - 1].1, objPath, path, viz), viz);
      } else {
        FormattersSound(obj.items[k - 1], ItemPath(objPath, k - 1), path, viz);
        ThenWalkMessages(FormattersUpTo(obj, k - 1, objPath, path, viz),
          Formatters(obj.items[k - 1], ItemPath(objPath, k - 1), path, viz), viz);
      }
    }
  }

  lemma {:induction false} MemberFormattersSound(key: string, value: Json, objPath: string, path: string, viz: int)
    ensures WalkMessages(MemberFormatters(key, value, objPath, path, viz), viz)
    decreases value, 2
  {
    var current := FormatterPath(objPath, key);
    if key == "formatter" && value.JStr? {
      var at := path + "." + current;
      assert FormatterEntry(value.s, at, viz).errors <= [FormatterFunctionMessage(viz, at)];
      assert FormatterEntry(value.s, at, viz).warnings <= [FormatterSyntaxMessage(viz, at)];
    } else if value.JObj? || value.JArr? {
      FormattersSound(value, current, path, viz);
    }
  }

  /** A string-valued `formatter` mentioning a function is an error, even with template braces. */
  lemma FormatterEntryCases(value: string, at: string, viz: int)
    ensures Contains(Lower(value), "function") ==> FormatterEntry(value, at, viz) == Error(FormatterFunctionMessage(viz, at))
    ensures !Contains(Lower(value), "function") && ('{' in value || '}' in value) ==> FormatterEntry(value, at, viz) == NoFindings
    ensures !Contains(Lower(value), "function") && '{' !in value && '}' !in value ==>
      FormatterEntry(value, at, viz) == Warning(FormatterSyntaxMessage(viz, at))
  {
  }

  /** The component walk reports only formatter and missing-options messages. */
  lemma {:induction false} ComponentSound(c: Json, path: string, viz: int)
    ensures WalkMessages(Component(c, path, viz), viz)
    decreases c, 2
  {
    if c.JObj? {
      ChartSound(c, path, viz);
      NestedSound(c, path, viz);
      ThenWalkMessages(ChartFindings(c, path, viz), Nested(c, path, viz), viz);
    }
  }

  lemma ChartSound(c: Json, path: string, viz: int)
    ensures WalkMessages(ChartFindings(c, path, viz), viz)
  {
    if Get(c, "type") == Some(JStr("HighchartsChart")) {
      var options := GetOr(c, "options", JObj([]));
      FormattersSound(options, "", path + ".options", viz);
      assert OptionsWarning(options, path, viz).warnings <= [MissingOptionsMessage(viz, path)];
      ThenWalkMessages(Formatters(options, "", path + ".options", viz), OptionsWarning(options, path, viz), viz);
    }
  }

  lemma {:induction false} NestedSound(c: Json, path: string, viz: int)
    requires c.JObj?
    ensures WalkMessages(Nested(c, path, viz), viz)
    decreases c, 1
  {
    match Find(c.members, "children")
    case Some(k) =>
      var children := c.members[k].1;
      if children.JArr? {
        ComponentsUpToSound(children, |children.items|, path, viz);
      }
    case None =>
  }

  lemma {:induction false} ComponentsUpToSound(children: Json, k: nat, path: string, viz: int)
    requires children.JArr? && k <= |children.items|
    ensures WalkMessages(ComponentsUpTo(children, k, path, viz), viz)
    decreases children, 0, k
  {
    if k > 0 {
      ComponentsUpToSound(children, k - 1, path, viz);
      ComponentSound(children.items[k - 1], ChildPath(path, k - 1), viz);
      ThenWalkMessages(ComponentsUpTo(children, k - 1, path, viz),
        Component(children.items[k - 1], ChildPath(path, k - 1), viz), viz);
    }
  }

  /** The walk goes down only through list-valued `children`: any other value ends it. */
  lemma ComponentStopsAtNonList(c: Json, path: string, viz: int)
    requires c.JObj? && !(HasKey(c, "children") && Get(c, "children").value.JArr?)
    ensures Component(c, path, viz) == ChartFindings(c, path, viz)
  {
    assert Nested(c, path, viz) == NoFindings;
    var f := ChartFindings(c, path, viz);
    assert f.errors + [] == f.errors && f.warnings + [] == f.warnings;
  }

  // ---------------------------------------------------- console classification

  /** Matching lower-cases the text, so the text's case never matters. */
  lemma MatchesIgnoresCase(text: string, patterns: seq<string>)
    ensures Matches(Lower(text), patterns) <==> Matches(text, patterns)
    ensures Matches(Upper(text), patterns) <==> Matches(text, patterns)
  {
    LowerIdempotent(text);
    LowerUpper(text);
  }

  /** At most one entry per log. */
  lemma {:induction false} ClassifiedAtMostOnePerLog(logs: seq<ConsoleLog>, kind: string, patterns: seq<string>, prefix: string)
    ensures |Classified(logs, kind, patterns, prefix)| <= |logs|
  {
    if |logs| > 0 {
      ClassifiedAtMostOnePerLog(logs[..|logs| - 1], kind, patterns, prefix);
    }
  }

  /** Every entry quotes the text of a log of the given kind that matches a pattern. */
  lemma {:induction false} ClassifiedSound(logs: seq<ConsoleLog>, kind: string, patterns: seq<string>, prefix: string)
    ensures forall e :: e in Classified(logs, kind, patterns, prefix) ==>
      exists j :: 0 <= j < |logs| && logs[j].kind == kind && Matches(logs[j].text, patterns)
        && e == prefix + logs[j].text
  {
    if |logs| > 0 {
      var init := logs[..|logs| - 1];
      ClassifiedSound(init, kind, patterns, prefix);
      forall e | e in Classified(init, kind, patterns, prefix)
        ensures exists j :: (0 <= j < |logs| && logs[j].kind == kind && Matches(logs[j].text, patterns)
          && e == prefix + logs[j].text)
      {
        var j :| 0 <= j < |init| && init[j].kind == kind && Matches(init[j].text, patterns)
          && e == prefix + init[j].text;
        assert init[j] == logs[j];
      }
    }
  }

  /** Every log of the given kind that matches a pattern yields its entry. */
  lemma {:induction false} ClassifiedComplete(logs: seq<ConsoleLog>, kind: string, patterns: seq<string>, prefix: string)
    ensures forall j :: 0 <= j < |logs| && logs[j].kind == kind && Matches(logs[j].text, patterns) ==>
      prefix + logs[j].text in Classified(logs, kind, patterns, prefix)
  {
    if |logs| > 0 {
      var init := logs[..|logs| - 1];
      ClassifiedComplete(init, kind, patterns, prefix);
      forall j | 0 <= j < |init|
        ensures init[j] == logs[j]
      {
      }
    }
  }

  /** Logs of another kind are never reported, whatever their text. */
  lemma {:induction false} ClassifiedOnlyKind(logs: seq<ConsoleLog>, kind: string, patterns: seq<string>, prefix: string)
    requires forall j :: 0 <= j < |logs| ==> logs[j].kind != kind
    ensures Classified(logs, kind, patterns, prefix) == []
  {
    if |logs| > 0 {
      ClassifiedOnlyKind(logs[..|logs| - 1], kind, patterns, prefix);
    }
  }

  // ------------------------------------------------------------- aggregation

  /** Every aggregated message carries the "Viz i: " prefix of the visualization it came from. */
  lemma {:induction false} PrefixedConcatSound(lists: seq<seq<string>>, k: nat)
    requires k <= |lists|
    ensures forall e :: e in PrefixedConcat(lists, k) ==>
      exists i, m :: 0 <= i < k && m in lists[i] && e == "Viz " + IntToString(i) + ": " + m
  {
    if k > 0 {
      PrefixedConcatSound(lists, k - 1);
      forall e | e in PrefixedConcat(lists, k)
        ensures exists i, m :: 0 <= i < k && m in lists[i] && e == "Viz " + IntToString(i) + ": " + m
      {
        if e !in PrefixedConcat(lists, k - 1) {
          var p :| 0 <= p < |lists[k - 1]| && Prefixed(k - 1, lists[k - 1])[p] == e;
          assert lists[k - 1][p] in lists[k - 1];
        }
      }
    }
  }

  /** The aggregated count is the sum of the per-visualization counts. */
  function TotalLength(lists: seq<seq<string>>, k: nat): nat
    requires k <= |lists|
  {
    if k == 0 then 0 else TotalLength(lists, k - 1) + |lists[k - 1]|
  }

  lemma {:induction false} PrefixedConcatLength(lists: seq<seq<string>>, k: nat)
    requires k <= |lists|
    ensures |PrefixedConcat(lists, k)| == TotalLength(lists, k)
  {
    if k > 0 {
      PrefixedConcatLength(lists, k - 1);
    }
  }

  // ---------------------------------------------------- layouts of the skills

  /** The layout of longArtifactsMultiTabs.py as `json.loads` returns it. */
  const LongArtifactsLayout := JObj([
    ("type", JStr("Document")),
    ("gap", JStr("0px")),
    ("style", JObj([("backgroundColor", JStr("#ffffff")), ("width", JStr("100%")), ("height", JStr("max-content"))])),
    ("children", JArr([
      JObj([
        ("name", JStr("DataTable0")),
        ("type", JStr("DataTable")),
        ("columns", JArr([JObj([("name", JStr("Column 1"))])])),
        ("data", JArr([JArr([JStr("Row 1")])]))])]))])

  /** That layout lacks `rows`, `columns`, `rowHeight` and `colWidth`: four errors, in that order. */
  lemma LongArtifactsFourErrors(layout: string)
    requires !Contains(layout, "function(") && !Contains(layout, "function (")
    ensures JsonFindings(layout, Ok(LongArtifactsLayout)) == Findings([
      MissingPropMessage("rows"), MissingPropMessage("columns"),
      MissingPropMessage("rowHeight"), MissingPropMessage("colWidth")], [])
  {
    LongArtifactsStructural();
    assert TextFindings(layout) == NoFindings;
  }

  /** The structural checks alone report the four missing grid properties. */
  lemma LongArtifactsStructural()
    ensures StructuralFindings(LongArtifactsLayout) == Findings([
      MissingPropMessage("rows"), MissingPropMessage("columns"),
      MissingPropMessage("rowHeight"), MissingPropMessage("colWidth")], [])
  {
    var ms := LongArtifactsLayout.members;
    LongArtifactsMissing();
    LongArtifactsChildren();
    GetFirst(ms, 0);
    GetFirst(ms, 3);
    DocumentRootFindings(LongArtifactsLayout, ms[3].1, [
      MissingPropMessage("rows"), MissingPropMessage("columns"),
      MissingPropMessage("rowHeight"), MissingPropMessage("colWidth")], NoFindings);
  }

  /**
   * A dict typed `Document` gets the errors of its missing properties, then
   * the findings of its `children`.
   */
  lemma DocumentRootFindings(root: Json, children: Json, missing: seq<string>, found: Findings)
    requires root.JObj? && Get(root, "type") == Some(JStr("Document")) && Get(root, "children") == Some(children)
    requires MissingProps(root, |RequiredProps|) == missing && ChildrenFindings(children) == found
    ensures StructuralFindings(root) == Findings(missing, []).Then(found)
  {
    assert RootTypeErrors(root) == [];
    assert HasKey(root, "children");
    assert missing + [] == missing;
  }

  lemma LongArtifactsMissing()
    ensures MissingProps(LongArtifactsLayout, |RequiredProps|) == [
      MissingPropMessage("rows"), MissingPropMessage("columns"),
      MissingPropMessage("rowHeight"), MissingPropMessage("colWidth")]
  {
    LongArtifactsKeys("type");
    LongArtifactsKeys("rows");
    LongArtifactsKeys("columns");
    LongArtifactsKeys("rowHeight");
    LongArtifactsKeys("colWidth");
    LongArtifactsKeys("gap");
    LongArtifactsKeys("children");
    FourLayoutPropsMissing(LongArtifactsLayout);
  }

  lemma LongArtifactsKeys(key: string)
    ensures HasKey(LongArtifactsLayout, key) <==> key == "type" || key == "gap" || key == "style" || key == "children"
  {
    var ms := LongArtifactsLayout.members;
    assert ms[1..][1..][1..][1..] == [];
  }

  /** A dict with `type`, `gap` and `children` but no grid properties gets one error per grid property. */
  lemma FourLayoutPropsMissing(root: Json)
    requires root.JObj?
    requires HasKey(root, "type") && HasKey(root, "gap") && HasKey(root, "children")
    requires !HasKey(root, "rows") && !HasKey(root, "columns") && !HasKey(root, "rowHeight") && !HasKey(root, "colWidth")
    ensures MissingProps(root, |RequiredProps|) == [
      MissingPropMessage("rows"), MissingPropMessage("columns"),
      MissingPropMessage("rowHeight"), MissingPropMessage("colWidth")]
  {
    assert MissingProps(root, 1) == [];
    assert MissingProps(root, 2) == [MissingPropMessage("rows")];
    assert MissingProps(root, 3) == [MissingPropMessage("rows"), MissingPropMessage("columns")];
    assert MissingProps(root, 4) == MissingProps(root, 3) + [MissingPropMessage("rowHeight")];
    assert MissingProps(root, 5) == MissingProps(root, 4) + [MissingPropMessage("colWidth")];
    assert MissingProps(root, 6) == MissingProps(root, 5);
  }

  /** Its one child, a DataTable, passes the child checks. */
  lemma LongArtifactsChildren()
    ensures ChildrenFindings(LongArtifactsLayout.members[3].1) == NoFindings
  {
    var child := LongArtifactsLayout.members[3].1.items[0];
    assert HasKey(child, "type") && !HasKey(child, "children") && Get(child, "type") == Some(JStr("DataTable"));
    assert ChildFindings(0, child) == NoFindings;
  }

  /** A CardContainer child of multiTabs.py, whose `children` is the empty string. */
  const CardContainer := JObj([
    ("name", JStr("CardContainer0")),
    ("type", JStr("CardContainer")),
    ("children", JStr("")),
    ("minHeight", JStr("80px")),
    ("rows", JInt(2)),
    ("columns", JInt(1)),
    ("style", JObj([
      ("border-radius", JStr("11.911px")),
      ("background", JStr("#2563EB")),
      ("padding", JStr("10px")),
      ("fontFamily", JStr("Arial"))])),
    ("hidden", JBool(false))])

  /** Such a child is rejected for its `children` alone. */
  lemma CardContainerChildrenNotArray()
    ensures ChildFindings(0, CardContainer) == Error(ChildChildrenMessage(0))
  {
    assert HasKey(CardContainer, "type") && Get(CardContainer, "type") == Some(JStr("CardContainer"));
    assert Get(CardContainer, "children") == Some(JStr(""));
  }

  /**
   * A list root whose items are not strings: all seven properties are
   * missing (`in` on a list tests its elements) and the `.get` on the list
   * then fails.
   */
  lemma ListOfDocumentsRoot(items: seq<Json>)
    requires forall j :: 0 <= j < |items| ==> !items[j].JStr?
    ensures NonDictRootFindings(JArr(items)) == Findings([
      MissingPropMessage("type"), MissingPropMessage("rows"), MissingPropMessage("columns"),
      MissingPropMessage("rowHeight"), MissingPropMessage("colWidth"), MissingPropMessage("gap"),
      MissingPropMessage("children"), NoGetMessage("list")], [])
  {
    var root := JArr(items);
    forall p ensures !Contained(p, root) {
    }
    assert MissingProps(root, 1) == [MissingPropMessage("type")];
    assert MissingProps(root, 2) == [MissingPropMessage("type"), MissingPropMessage("rows")];
    assert MissingProps(root, 3) == [MissingPropMessage("type"), MissingPropMessage("rows"), MissingPropMessage("columns")];
    assert MissingProps(root, 4) == MissingProps(root, 3) + [MissingPropMessage("rowHeight")];
    assert MissingProps(root, 5) == MissingProps(root, 4) + [MissingPropMessage("colWidth")];
    assert MissingProps(root, 6) == MissingProps(root, 5) + [MissingPropMessage("gap")];
    assert MissingProps(root, 7) == MissingProps(root, 6) + [MissingPropMessage("children")];
  }
}
