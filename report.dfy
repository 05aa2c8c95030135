/** `validate_config` once both documents are loaded: run the four
    resolvers, AND their verdicts, and assemble the report lines. Colors
    are off (DeepDiff or colorama is missing), so each
    line is plain text. */
module Report {
  import opened Wrappers
  import opened Text
  import opened Values
  import opened Subset
  import opened Resolvers

  /** The four expected sections, as `expected_config.get(..., [])` gives them. */
  datatype Expected = Expected(
    providers: seq<Fields>,
    controlPlanes: seq<Fields>,
    resources: seq<Fields>,
    variables: seq<Fields>)

  const Arrow: string := "    → "

  /** A line with its leading arrow removed, when it has one. */
  function StripArrow(line: string): string {
    if Arrow <= line then line[|Arrow|..] else line
  }

  function StripArrows(lines: seq<string>): (r: seq<string>)
    ensures |r| == |lines| && forall i | 0 <= i < |lines| :: r[i] == StripArrow(lines[i])
  {
    seq(|lines|, i requires 0 <= i < |lines| => StripArrow(lines[i]))
  }

  /** `result.detail.split('\n')`, each piece behind the arrow: at least one
      line, every line starts with the arrow and is a single line of text,
      and without the arrows the lines joined by newlines give back the
      detail. */
  function DetailLines(detail: string): (lines: seq<string>)
    ensures |lines| >= 1
    ensures forall i | 0 <= i < |lines| :: Arrow <= lines[i] && '\n' !in lines[i]
    ensures Join(StripArrows(lines), "\n") == detail
  {
    var pieces := Split(detail, '\n');
    var lines := seq(|pieces|, i requires 0 <= i < |pieces| => Arrow + pieces[i]);
    assert '\n' !in Arrow;
    assert StripArrows(lines) == pieces by {
      forall i | 0 <= i < |pieces| ensures StripArrows(lines)[i] == pieces[i] {
        assert (Arrow + pieces[i])[|Arrow|..] == pieces[i];
      }
    }
    JoinSplit(detail, '\n');
    lines
  }

  /** The report lines of one result: its message, then its detail lines
      when it failed and has a non-empty detail. */
  function ResultLines(r: ValidationResult): seq<string> {
    [r.message]
    + if r.detail.Some? && r.detail.value != "" && !r.found then DetailLines(r.detail.value) else []
  }

  /** The lines of a run of results, in order. */
  function ResultsLines(results: seq<ValidationResult>): seq<string> {
    if results == [] then []
    else ResultsLines(results[..|results| - 1]) + ResultLines(results[|results| - 1])
  }

  /** The lines of all sections' results, section after section. */
  function SectionsLines(sections: seq<SectionValidation>): seq<string> {
    if sections == [] then []
    else SectionsLines(sections[..|sections| - 1]) + ResultsLines(sections[|sections| - 1].results)
  }

  function Repeat(c: char, n: nat): (s: string)
    ensures |s| == n && forall i | 0 <= i < n :: s[i] == c
  {
    if n == 0 then [] else Repeat(c, n - 1) + [c]
  }

  function Header(configName: string): string {
    "🧪 Partial Validation: " + configName
  }

  function Verdict(passed: bool): string {
    if passed then "✅ PASSED" else "❌ FAILED"
  }

  /** The lines before the results: header, underline, the four summaries. */
  function Preamble(configName: string, sections: seq<SectionValidation>): seq<string>
    requires |sections| == 4
  {
    [Header(configName), Repeat('=', |Header(configName)|), ""]
    + [sections[0].summary, sections[1].summary, sections[2].summary, sections[3].summary, ""]
  }

  /** The whole report: the preamble, every result, and the verdict. */
  function ReportLines(configName: string, sections: seq<SectionValidation>, passed: bool): seq<string>
    requires |sections| == 4
  {
    Preamble(configName, sections) + SectionsLines(sections) + ["", Verdict(passed), ""]
  }

  /** Regrouping appended runs of lines, the step the append loops below need. */
  lemma Associative(a: seq<string>, b: seq<string>, c: seq<string>)
    ensures (a + b) + c == a + (b + c)
  {
  }

  lemma ResultsLinesStep(results: seq<ValidationResult>, k: nat)
    requires k < |results|
    ensures ResultsLines(results[..k + 1]) == ResultsLines(results[..k]) + ResultLines(results[k])
  {
    assert results[..k + 1][..k] == results[..k];
  }

  lemma SectionsLinesStep(sections: seq<SectionValidation>, s: nat)
    requires s < |sections|
    ensures SectionsLines(sections[..s + 1]) == SectionsLines(sections[..s]) + ResultsLines(sections[s].results)
  {
    assert sections[..s + 1][..s] == sections[..s];
  }

  /** One result's lines appended to `lines`: the message, then, for a
      failed result with a non-empty detail, one arrow line per detail line. */
  method AppendResult(lines: seq<string>, r: ValidationResult) returns (out: seq<string>)
    ensures out == lines + ResultLines(r)
  {
    out := lines + [r.message];
    if r.detail.Some? && r.detail.value != "" && !r.found {
      var pieces := Split(r.detail.value, '\n');
      ghost var arrowed := DetailLines(r.detail.value);
      var j := 0;
      while j < |pieces|
        invariant 0 <= j <= |pieces|
        invariant out == lines + [r.message] + arrowed[..j]
      {
        assert arrowed[..j + 1] == arrowed[..j] + [Arrow + pieces[j]];
        out := out + [Arrow + pieces[j]];
        j := j + 1;
      }
      assert arrowed[..j] == arrowed;
    }
  }

  /** The results of one section appended to `lines`, in order. */
  method AppendResults(lines: seq<string>, results: seq<ValidationResult>) returns (out: seq<string>)
    ensures out == lines + ResultsLines(results)
  {
    out := lines;
    var k := 0;
    assert lines + ResultsLines(results[..0]) == lines by {
      assert results[..0] == [];
    }
    while k < |results|
      invariant 0 <= k <= |results|
      invariant out == lines + ResultsLines(results[..k])
    {
      ResultsLinesStep(results, k);
      Associative(lines, ResultsLines(results[..k]), ResultLines(results[k]));
      out := AppendResult(out, results[k]);
      k := k + 1;
    }
    assert results[..k] == results;
  }

  /** The results of all sections appended to `lines`, section after section. */
  method AppendSections(lines: seq<string>, sections: seq<SectionValidation>) returns (out: seq<string>)
    ensures out == lines + SectionsLines(sections)
  {
    out := lines;
    var s := 0;
    assert lines + SectionsLines(sections[..0]) == lines by {
      assert sections[..0] == [];
    }
    while s < |sections|
      invariant 0 <= s <= |sections|
      invariant out == lines + SectionsLines(sections[..s])
    {
      SectionsLinesStep(sections, s);
      Associative(lines, SectionsLines(sections[..s]), ResultsLines(sections[s].results));
      out := AppendResults(out, sections[s].results);
      s := s + 1;
    }
    assert sections[..s] == sections;
  }

  /** The report assembly of `validate_config`. */
  method AssembleReport(configName: string, sections: seq<SectionValidation>, passed: bool) returns (text: string)
    requires |sections| == 4
    ensures text == Join(ReportLines(configName, sections, passed), "\n")
  {
    var header := Header(configName);
    var lines := [header, Repeat('=', |header|), ""];
    lines := lines + [sections[0].summary, sections[1].summary, sections[2].summary, sections[3].summary, ""];
    assert lines == Preamble(configName, sections);
    lines := AppendSections(lines, sections);
    lines := lines + ["", Verdict(passed), ""];
    text := Join(lines, "\n");
  }

  /** The four sections in the order `validate_config` computes them, or the
      exception of the first resolver that raises: the providers, control
      planes, resources and variables resolvers run in that order, and the
      first one that raises ends the run with its exception. */
  function Sections(expected: Expected, actual: Fields): (r: Result<seq<SectionValidation>, PyException>)
    ensures r.Success? ==> |r.value| == 4
    ensures r.Success? ==> Tallied(r.value[0]) && Tallied(r.value[1]) && Tallied(r.value[2]) && Tallied(r.value[3])
    ensures var p, c, g, v := ProvidersSection(expected.providers, actual),
              ControlPlanesSection(expected.controlPlanes, actual),
              ResourcesSection(expected.resources, actual),
              VariablesSection(expected.variables, actual);
      && (r.Success? <==> p.Success? && c.Success? && g.Success? && v.Success?)
      && (r.Success? ==> r.value == [p.value, c.value, g.value, v.value])
      && (p.Failure? ==> r == Failure(p.error))
      && (p.Success? && c.Failure? ==> r == Failure(c.error))
      && (p.Success? && c.Success? && g.Failure? ==> r == Failure(g.error))
      && (p.Success? && c.Success? && g.Success? && v.Failure? ==> r == Failure(v.error))
  {
    var p := ProvidersSection(expected.providers, actual);
    if p.Failure? then Failure(p.error) else
    var c := ControlPlanesSection(expected.controlPlanes, actual);
    if c.Failure? then Failure(c.error) else
    var g := ResourcesSection(expected.resources, actual);
    if g.Failure? then Failure(g.error) else
    var v := VariablesSection(expected.variables, actual);
    if v.Failure? then Failure(v.error) else
    var all := [p.value, c.value, g.value, v.value];
    Success(all)
  }

  /** `all_passed`: the conjunction of the four sections' verdicts. */
  predicate AllPassed(sections: seq<SectionValidation>)
    requires |sections| == 4
  {
    sections[0].allFound && sections[1].allFound && sections[2].allFound && sections[3].allFound
  }

  /** `validate_config` after loading: the verdict and the report text, or
      the exception of the first resolver that raised. */
  method ValidateConfig(configName: string, expected: Expected, actual: Fields)
    returns (r: Result<(bool, string), PyException>)
    ensures r.Failure? <==> Sections(expected, actual).Failure?
    ensures r.Failure? ==> r.error == Sections(expected, actual).error
    ensures r.Success? ==>
      var sections := Sections(expected, actual).value;
      && r.value.0 == AllPassed(sections)
      && r.value.1 == Join(ReportLines(configName, sections, AllPassed(sections)), "\n")
  {
    var providers := ValidateProviders(expected.providers, actual);
    if providers.Failure? {
      return Failure(providers.error);
    }
    var controlPlanes := ValidateControlPlanes(expected.controlPlanes, actual);
    if controlPlanes.Failure? {
      return Failure(controlPlanes.error);
    }
    var resources := ValidateGenericResources(expected.resources, actual);
    if resources.Failure? {
      return Failure(resources.error);
    }
    var variables := ValidateVariables(expected.variables, actual);
    if variables.Failure? {
      return Failure(variables.error);
    }
    var sections := [providers.value, controlPlanes.value, resources.value, variables.value];
    var allPassed := providers.value.allFound && controlPlanes.value.allFound
                     && resources.value.allFound && variables.value.allFound;
    var text := AssembleReport(configName, sections, allPassed);
    r := Success((allPassed, text));
  }

  // ---------------------------------------------------------------------
  // Properties of the verdict and the report

  /** The run passes exactly when every result of every section was found. */
  lemma PassedIffEveryResultFound(expected: Expected, actual: Fields)
    requires Sections(expected, actual).Success?
    ensures var sections := Sections(expected, actual).value;
      AllPassed(sections) <==>
        forall s, i | 0 <= s < 4 && 0 <= i < |sections[s].results| :: sections[s].results[i].found
  {
    var sections := Sections(expected, actual).value;
    forall s | 0 <= s < 4 ensures sections[s].allFound == AllFound(sections[s].results) {
      assert s == 0 || s == 1 || s == 2 || s == 3;
      assert Tallied(sections[s]);
    }
    if AllPassed(sections) {
      forall s, i | 0 <= s < 4 && 0 <= i < |sections[s].results| ensures sections[s].results[i].found {
        assert s == 0 || s == 1 || s == 2 || s == 3;
        assert sections[s].allFound;
      }
    }
  }

  /** A found result contributes its message only; a failed one adds one
      arrow line per line of its detail, and those lines, stripped of the
      arrow and joined with newlines, give back the detail. */
  lemma {:induction false} DetailLinesOnlyForFailures(r: ValidationResult)
    ensures r.found ==> ResultLines(r) == [r.message]
    ensures !r.found && r.detail.Some? && r.detail.value != "" ==>
      exists pieces: seq<string> ::
        && ResultLines(r) == [r.message] + seq(|pieces|, i requires 0 <= i < |pieces| => Arrow + pieces[i])
        && Join(pieces, "\n") == r.detail.value
  {
    if !r.found && r.detail.Some? && r.detail.value != "" {
      var pieces := Split(r.detail.value, '\n');
      JoinSplit(r.detail.value, '\n');
      assert DetailLines(r.detail.value) == seq(|pieces|, i requires 0 <= i < |pieces| => Arrow + pieces[i]);
    }
  }

  /** The report starts with the header and its underline of equal length,
      and its last non-empty line is the verdict. */
  lemma ReportFrame(configName: string, sections: seq<SectionValidation>, passed: bool)
    requires |sections| == 4
    ensures var lines := ReportLines(configName, sections, passed);
      && lines[0] == "🧪 Partial Validation: " + configName
      && |lines[1]| == |lines[0]|
      && lines[|lines| - 2] == (if passed then "✅ PASSED" else "❌ FAILED")
      && lines[|lines| - 1] == ""
  {
  }
}
