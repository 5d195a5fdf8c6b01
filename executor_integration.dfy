/**
 * The end of `test_skill_visualization_with_executor`: the generated test
 * script prints a `FINAL_RESULT_JSON:` marker followed by a JSON object,
 * and the runner scans the captured stdout for it line by line, counting
 * braces to find where the object ends. When no object can be read, it
 * builds a fallback result from the raw output and stderr.
 */
module ExecutorIntegration {
  import opened Strings
  import opened Json

  const Marker := "FINAL_RESULT_JSON:"
  const CheckMark := "\U{2705}"
  const CrossMark := "\U{274C}"
  const FallbackSummary := "Test completed - check output for details"

  // ------------------------------------------------------------ line scanner

  /** The first character of `line` that is not white space is `{`. */
  predicate StartsObject(line: string)
  {
    line != [] && (if IsSpace(line[0]) then StartsObject(line[1..]) else line[0] == '{')
  }

  /** `StartsObject` is Python's `line.strip().startswith('{')`. */
  lemma {:induction false} StartsObjectIsStripStartsWith(line: string)
    ensures StartsObject(line) <==> |Strip(line)| > 0 && Strip(line)[0] == '{'
  {
    StripStartsWith(line, '{');
    if line != [] && IsSpace(line[0]) {
      StartsObjectIsStripStartsWith(line[1..]);
      StripStartsWith(line[1..], '{');
    }
  }

  /** What one line adds to `brace_count`. */
  function Balance(line: string): int
  {
    Count(line, '{') - Count(line, '}')
  }

  /** The scanner's variables: `in_json`, `brace_count`, `json_lines`, and whether it broke out. */
  datatype Scan = Scan(inJson: bool, braces: int, collected: seq<string>, stopped: bool)

  const Initial := Scan(false, 0, [], false)

  /** One iteration of the scan over `line`; after the `break` nothing changes. */
  function ScanStep(st: Scan, line: string): Scan
  {
    if st.stopped then st
    else if StartsObject(line) then Scan(true, st.braces + Balance(line), st.collected + [line], false)
    else if st.inJson then
      var b := st.braces + Balance(line);
      Scan(true, b, st.collected + [line], b <= 0)
    else st
  }

  /** The scanner's state after the first `k` lines. */
  function ScanUpTo(lines: seq<string>, k: nat): Scan
    requires k <= |lines|
  {
    if k == 0 then Initial else ScanStep(ScanUpTo(lines, k - 1), lines[k - 1])
  }

  /** The extraction loop, `break` included. */
  method ExtractJsonLines(lines: seq<string>) returns (jsonLines: seq<string>)
    ensures jsonLines == JsonLines(lines)
  {
    jsonLines := [];
    var inJson := false;
    var braceCount := 0;
    var k := 0;
    while k < |lines|
      invariant k <= |lines|
      invariant ScanUpTo(lines, k) == Scan(inJson, braceCount, jsonLines, false)
    {
      var line := lines[k];
      if StartsObject(line) {
        inJson := true;
        braceCount := braceCount + Count(line, '{') - Count(line, '}');
        jsonLines := jsonLines + [line];
      } else if inJson {
        braceCount := braceCount + Count(line, '{') - Count(line, '}');
        jsonLines := jsonLines + [line];
        if braceCount <= 0 {
          StoppedStays(lines, k + 1, |lines|);
          break;
        }
      }
      k := k + 1;
    }
    ScanCollects(lines);
  }

  lemma {:induction false} StoppedStays(lines: seq<string>, k: nat, m: nat)
    requires k <= m <= |lines| && ScanUpTo(lines, k).stopped
    ensures ScanUpTo(lines, m) == ScanUpTo(lines, k)
    decreases m
  {
    if m > k {
      StoppedStays(lines, k, m - 1);
    }
  }

  // ----------------------------------------------- the lines that are taken

  /** The index of the first line that starts an object, `|lines|` when none does. */
  function FirstStart(lines: seq<string>): (r: nat)
    ensures r <= |lines|
    ensures forall i :: 0 <= i < r ==> !StartsObject(lines[i])
    ensures r < |lines| ==> StartsObject(lines[r])
  {
    if lines == [] || StartsObject(lines[0]) then 0 else 1 + FirstStart(lines[1..])
  }

  /** The sum of `Balance` over `lines[s..e]`. */
  function Braces(lines: seq<string>, s: nat, e: nat): int
    requires s <= e <= |lines|
    decreases e
  {
    if e == s then 0 else Braces(lines, s, e - 1) + Balance(lines[e - 1])
  }

  /**
   * Line `j`, after an object started at line `s`, closes the object: it does
   * not start an object itself, and the braces of `lines[s..j + 1]` do not
   * leave an open one.
   */
  predicate Closes(lines: seq<string>, s: nat, j: nat)
    requires s < j < |lines|
  {
    !StartsObject(lines[j]) && Braces(lines, s, j + 1) <= 0
  }

  /** The first line from `j` on that closes an object started at `s`, `|lines|` when none does. */
  function FirstClose(lines: seq<string>, s: nat, j: nat): (r: nat)
    requires s < j <= |lines|
    ensures j <= r <= |lines|
    ensures forall i :: j <= i < r ==> !Closes(lines, s, i)
    ensures r < |lines| ==> Closes(lines, s, r)
    decreases |lines| - j
  {
    if j == |lines| || Closes(lines, s, j) then j else FirstClose(lines, s, j + 1)
  }

  /**
   * The lines the scan takes: from the first line that starts an object up
   * to and including the first later line that closes it, or to the end.
   */
  function JsonLines(lines: seq<string>): (r: seq<string>)
    ensures r == [] <==> forall i :: 0 <= i < |lines| ==> !StartsObject(lines[i])
    ensures r != [] ==> StartsObject(r[0])
  {
    lines[FirstStart(lines)..TakenEnd(lines)]
  }

  /** Where the taken lines end: after the closing line, or at the end. */
  function TakenEnd(lines: seq<string>): (e: nat)
    ensures FirstStart(lines) <= e <= |lines|
    ensures FirstStart(lines) < |lines| ==> FirstStart(lines) < e
  {
    var s := FirstStart(lines);
    if s == |lines| then |lines|
    else
      var c := FirstClose(lines, s, s + 1);
      if c < |lines| then c + 1 else c
  }

  /**
   * The scan after `k` lines, described through the reference definitions:
   * untouched before the first object line; then holding every line so far
   * with their brace count; and once a line has closed the object, stopped
   * with the lines up to that one.
   */
  function Expected(lines: seq<string>, k: nat): Scan
    requires k <= |lines|
  {
    var s := FirstStart(lines);
    if k <= s then Initial
    else
      var c := FirstClose(lines, s, s + 1);
      if k <= c then Scan(true, Braces(lines, s, k), lines[s..k], false)
      else Scan(true, Braces(lines, s, c + 1), lines[s..c + 1], true)
  }

  lemma {:induction false} ScanPrefix(lines: seq<string>, k: nat)
    requires k <= |lines|
    ensures ScanUpTo(lines, k) == Expected(lines, k)
  {
    if k > 0 {
      ScanPrefix(lines, k - 1);
      ExpectedStep(lines, k);
    }
  }

  /** One more line takes the description one step, as the scan's loop body does. */
  lemma ExpectedStep(lines: seq<string>, k: nat)
    requires 0 < k <= |lines|
    ensures Expected(lines, k) == ScanStep(Expected(lines, k - 1), lines[k - 1])
  {
    var s := FirstStart(lines);
    var line := lines[k - 1];
    if k - 1 < s {
      assert !StartsObject(line);
    } else {
      var c := FirstClose(lines, s, s + 1);
      if k - 1 == s {
        assert lines[s..k] == [line];
      } else if k - 1 <= c {
        assert lines[s..k] == lines[s..k - 1] + [line];
        assert Braces(lines, s, k) == Braces(lines, s, k - 1) + Balance(line);
        if k - 1 < c {
          assert !Closes(lines, s, k - 1);
        } else {
          assert Closes(lines, s, k - 1);
        }
      }
    }
  }

  /** The scan collects exactly `JsonLines`. */
  lemma ScanCollects(lines: seq<string>)
    ensures ScanUpTo(lines, |lines|).collected == JsonLines(lines)
  {
    ScanPrefix(lines, |lines|);
  }

  /**
   * A pretty-printed object after other output is taken from its opening
   * line to its closing line, and what follows is left.
   */
  lemma PrettyObjectTaken()
    ensures JsonLines(["Done", "{", "1", "}", "end"]) == ["{", "1", "}"]
  {
    var lines := ["Done", "{", "1", "}", "end"];
    assert !StartsObject(lines[0]) && StartsObject(lines[1]);
    assert FirstStart(lines) == 1;
    assert Braces(lines, 1, 3) == 1;
    assert !StartsObject(lines[2]) && !Closes(lines, 1, 2);
    assert !StartsObject(lines[3]) && Closes(lines, 1, 3);
    assert TakenEnd(lines) == 4;
    assert lines[1..4] == ["{", "1", "}"];
  }

  /**
   * A one-line object balances its braces on a line that starts an object,
   * which is never tested for the end: the next line is taken as well.
   */
  lemma OneLineObjectTakesNextLine()
    ensures JsonLines(["{}", "after"]) == ["{}", "after"]
  {
    var lines := ["{}", "after"];
    assert StartsObject(lines[0]) && !StartsObject(lines[1]);
    assert FirstStart(lines) == 0;
    assert Balance(lines[0]) == 0 && Balance(lines[1]) == 0;
    assert Closes(lines, 0, 1);
    assert FirstClose(lines, 0, 1) == 1;
  }

  // ------------------------------------------------------------ the result

  /** `output[json_start:].strip()`: what follows the first marker, stripped. */
  function JsonPart(output: string): string
    requires Contains(output, Marker)
  {
    Strip(output[IndexOf(output, Marker) + |Marker|..])
  }

  /** `errors.split('\n') if errors else []`. */
  function ErrorLines(errors: string): seq<string>
  {
    if errors == "" then [] else Split(errors, '\n')
  }

  /** A list of strings as a JSON array. */
  function Strs(xs: seq<string>): (r: seq<Json>)
    ensures |r| == |xs| && forall k :: 0 <= k < |xs| ==> r[k] == JStr(xs[k])
  {
    seq(|xs|, k requires 0 <= k < |xs| => JStr(xs[k]))
  }

  /** The fallback result dictionary. */
  function FallbackResult(output: string, errors: string): Json
  {
    JObj([
      ("success", JBool(Contains(output, CheckMark) && !Contains(output, CrossMark))),
      ("output", JStr(output)),
      ("errors", JArr(Strs(ErrorLines(errors)))),
      ("test_summary", JStr(FallbackSummary))])
  }

  /**
   * What lines 121-156 return for captured `output` and `errors`, with
   * `json.loads` as `loads` (`None` when it raises).
   */
  function TestResult(output: string, errors: string, loads: string -> Option<Json>): (r: Json)
    ensures r != FallbackResult(output, errors) ==> Contains(output, Marker) && exists t :: loads(t) == Some(r)
  {
    if Contains(output, Marker) then
      var jsonLines := JsonLines(Split(JsonPart(output), '\n'));
      if jsonLines != [] && loads(Join("\n", jsonLines)).Some? then loads(Join("\n", jsonLines)).value
      else FallbackResult(output, errors)
    else FallbackResult(output, errors)
  }

  /** The extraction and the fallback, as the runner performs them. */
  method ReadTestResult(output: string, errors: string, loads: string -> Option<Json>) returns (result: Json)
    ensures result == TestResult(output, errors, loads)
  {
    if Contains(output, Marker) {
      var jsonStart := IndexOf(output, Marker) + |Marker|;
      var jsonPart := Strip(output[jsonStart..]);
      var lines := Split(jsonPart, '\n');
      var jsonLines := ExtractJsonLines(lines);
      if jsonLines != [] {
        var jsonStr := Join("\n", jsonLines);
        var parsed := loads(jsonStr);
        if parsed.Some? {
          return parsed.value;
        }
      }
    }
    result := FallbackResult(output, errors);
  }

  // ------------------------------------------------------------ properties

  /** Without the marker nothing is extracted: the result is the fallback. */
  lemma NoMarkerFallback(output: string, errors: string, loads: string -> Option<Json>)
    requires forall i :: 0 <= i <= |output| ==> !(Marker <= output[i..])
    ensures TestResult(output, errors, loads) == FallbackResult(output, errors)
  {
    ContainsAt(output, Marker);
  }

  /** With the marker but with no line that starts an object, the result is the fallback too. */
  lemma NoObjectFallback(output: string, errors: string, loads: string -> Option<Json>)
    requires Contains(output, Marker)
    requires forall k :: 0 <= k < |Split(JsonPart(output), '\n')| ==> !StartsObject(Split(JsonPart(output), '\n')[k])
    ensures TestResult(output, errors, loads) == FallbackResult(output, errors)
  {
  }

  /**
   * The text handed to `json.loads` is the taken lines joined with newlines,
   * nothing added or removed: splitting it again gives them back; it begins
   * with the first object line and lies within what follows the marker.
   */
  lemma LoadedText(output: string)
    requires Contains(output, Marker)
    requires JsonLines(Split(JsonPart(output), '\n')) != []
    ensures Split(Join("\n", JsonLines(Split(JsonPart(output), '\n'))), '\n')
      == JsonLines(Split(JsonPart(output), '\n'))
    ensures Contains(JsonPart(output), Join("\n", JsonLines(Split(JsonPart(output), '\n'))))
    ensures StartsObject(JsonLines(Split(JsonPart(output), '\n'))[0])
  {
    TakenText(JsonPart(output));
  }

  /** `LoadedText` for any text split into lines. */
  lemma TakenText(part: string)
    requires JsonLines(Split(part, '\n')) != []
    ensures Split(Join("\n", JsonLines(Split(part, '\n'))), '\n') == JsonLines(Split(part, '\n'))
    ensures Contains(part, Join("\n", JsonLines(Split(part, '\n'))))
  {
    var lines := Split(part, '\n');
    SplitPieces(part, '\n');
    JoinSplit(part, '\n');
    SliceRoundTrip(lines, FirstStart(lines), TakenEnd(lines), '\n');
    JoinSliceContained("\n", lines, FirstStart(lines), TakenEnd(lines));
  }

  /** A run of separator-free pieces, joined and split again, comes back unchanged. */
  lemma SliceRoundTrip(xs: seq<string>, s: nat, e: nat, c: char)
    requires s < e <= |xs|
    requires forall k :: 0 <= k < |xs| ==> c !in xs[k]
    ensures Split(Join([c], xs[s..e]), c) == xs[s..e]
  {
    var run := xs[s..e];
    assert forall k :: 0 <= k < |run| ==> run[k] == xs[s + k];
    SplitJoin(run, c);
  }

  /** A contiguous run of a list, joined, lies within the whole list joined. */
  lemma {:induction false} JoinSliceContained(sep: string, xs: seq<string>, s: nat, e: nat)
    requires s < e <= |xs|
    ensures Contains(Join(sep, xs), Join(sep, xs[s..e]))
  {
    if s > 0 {
      JoinSliceContained(sep, xs[1..], s - 1, e - 1);
      assert xs[1..][s - 1..e - 1] == xs[s..e];
      ContainsWithin(xs[0] + sep, Join(sep, xs[1..]), "", Join(sep, xs[s..e]));
      assert xs[0] + sep + Join(sep, xs[1..]) + "" == Join(sep, xs);
    } else {
      JoinPrefix(sep, xs, e);
      ContainsAt(Join(sep, xs), Join(sep, xs[..e]));
      assert xs[s..e] == xs[..e];
      assert Join(sep, xs[..e]) <= Join(sep, xs)[0..];
    }
  }

  /** Joining the first `e` elements gives a prefix of the whole join. */
  lemma {:induction false} JoinPrefix(sep: string, xs: seq<string>, e: nat)
    requires 0 < e <= |xs|
    ensures Join(sep, xs[..e]) <= Join(sep, xs)
  {
    if e > 1 {
      JoinPrefix(sep, xs[1..], e - 1);
      assert xs[..e][1..] == xs[1..][..e - 1];
      assert Join(sep, xs[..e]) == xs[0] + sep + Join(sep, xs[1..][..e - 1]);
      assert Join(sep, xs) == xs[0] + sep + Join(sep, xs[1..]);
    } else if |xs| > 1 {
      assert xs[..e] == [xs[0]];
      assert Join(sep, xs) == xs[0] + (sep + Join(sep, xs[1..]));
    }
  }

  /**
   * The fallback: `success` holds exactly when the output shows a check mark
   * and no cross mark; `errors` is empty exactly when stderr is, and
   * otherwise its entries are the newline-free lines that, rejoined, give
   * stderr back.
   */
  lemma FallbackFields(output: string, errors: string)
    ensures Get(FallbackResult(output, errors), "success") == Some(JBool(
      (exists i :: 0 <= i <= |output| && CheckMark <= output[i..])
      && (forall i :: 0 <= i <= |output| ==> !(CrossMark <= output[i..]))))
    ensures Get(FallbackResult(output, errors), "output") == Some(JStr(output))
    ensures Get(FallbackResult(output, errors), "errors") == Some(JArr(Strs(ErrorLines(errors))))
    ensures Get(FallbackResult(output, errors), "test_summary") == Some(JStr(FallbackSummary))
    ensures ErrorLines(errors) == [] <==> errors == ""
    ensures errors != "" ==> Join("\n", ErrorLines(errors)) == errors
    ensures forall k :: 0 <= k < |ErrorLines(errors)| ==> '\n' !in ErrorLines(errors)[k]
  {
    var r := FallbackResult(output, errors);
    ContainsAt(output, CheckMark);
    ContainsAt(output, CrossMark);
    GetFirst(r.members, 0);
    GetFirst(r.members, 1);
    GetFirst(r.members, 2);
    GetFirst(r.members, 3);
    if errors != "" {
      JoinSplit(errors, '\n');
      SplitPieces(errors, '\n');
    }
  }

  /** When `json.loads` accepts the taken text, its value is the result. */
  lemma LoadedResult(output: string, errors: string, loads: string -> Option<Json>)
    requires Contains(output, Marker)
    requires JsonLines(Split(JsonPart(output), '\n')) != []
    requires loads(Join("\n", JsonLines(Split(JsonPart(output), '\n')))).Some?
    ensures TestResult(output, errors, loads) == loads(Join("\n", JsonLines(Split(JsonPart(output), '\n')))).value
  {
  }
}
