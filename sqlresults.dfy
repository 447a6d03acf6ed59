/**
 * Post-processing of a batch run's output: the output is cut into lines,
 * the dashed rule a client prints under the column header is removed, and
 * one trailing empty line (the final newline) is removed.
 */
module SqlResults {
  import opened Strs

  /** The second line is the rule under the header: it exists and starts with '-'. */
  predicate HasRule(lines: seq<string>) {
    |lines| >= 2 && HasPrefix(lines[1], "-")
  }

  /** The lines without the header rule. */
  function WithoutRule(lines: seq<string>): (r: seq<string>)
    requires |lines| >= 1
    ensures |r| >= 1 && r[0] == lines[0]
  {
    if HasRule(lines) then [lines[0]] + lines[2..] else lines
  }

  /** The lines without one trailing empty line. */
  function WithoutTrailingBlank(lines: seq<string>): seq<string> {
    if |lines| >= 1 && lines[|lines| - 1] == "" then lines[..|lines| - 1] else lines
  }

  /** What ParseSQLResults returns for `out`. */
  function Cleaned(out: string): seq<string> {
    WithoutTrailingBlank(WithoutRule(Split(out, '\n')))
  }

  /** ParseSQLResults: shortens the line list in place, first at index 1, then at its end. */
  method ParseSQLResults(out: string) returns (results: seq<string>)
    ensures results == Cleaned(out)
  {
    results := Split(out, '\n');
    if |results| >= 2 && HasPrefix(results[1], "-") {
      results := results[..1] + results[2..];
    }
    if results[|results| - 1] == "" {
      results := results[..|results| - 1];
    }
  }

  /**
   * The result keeps the order of the lines and loses at most two of them:
   * it is a prefix of the lines with the rule removed, one line shorter at most.
   */
  lemma CleanedShape(out: string)
    ensures var lines := Split(out, '\n');
      var body := if HasRule(lines) then [lines[0]] + lines[2..] else lines;
      var r := Cleaned(out);
      |body| - 1 <= |r| <= |body| && r == body[..|r|]
      && |lines| - 2 <= |r| <= |lines|
  {
  }

  /** The second line is removed exactly when it is a rule: otherwise it stays in place. */
  lemma RuleRemovedIff(out: string)
    ensures var lines := Split(out, '\n');
      var r := Cleaned(out);
      (HasRule(lines) ==> |r| >= |lines| - 2 && forall i :: 1 <= i < |r| ==> r[i] == lines[i + 1])
      && (!HasRule(lines) ==> |r| >= |lines| - 1 && forall i :: 0 <= i < |r| ==> r[i] == lines[i])
  {
  }

  /** Empty output gives no lines. */
  lemma EmptyOutput()
    ensures Cleaned("") == []
  {
  }

  /**
   * The first line survives unless the output is empty or is exactly an empty
   * first line followed by a rule with nothing after it (then both go).
   */
  lemma FirstLineKept(out: string)
    ensures var lines := Split(out, '\n');
      (out != "" && !(|lines| == 2 && lines[0] == "" && HasRule(lines)))
        <==> (|Cleaned(out)| >= 1 && Cleaned(out)[0] == lines[0])
  {
    var lines := Split(out, '\n');
    if out != "" && |lines| == 1 {
      assert lines == Split(out, '\n');
      JoinSplit(out, '\n');
    }
  }

  /** Cleaned applied to lines joined with newlines, when no line holds a newline. */
  lemma CleanedOfJoin(lines: seq<string>)
    requires |lines| >= 1
    requires forall i :: 0 <= i < |lines| ==> '\n' !in lines[i]
    ensures Cleaned(Join(lines, "\n")) == WithoutTrailingBlank(WithoutRule(lines))
  {
    assert "\n" == ['\n'];
    SplitJoin(lines, '\n');
  }

  /** No line of a printed table holds a newline when none of its parts does. */
  lemma TableLines(header: string, rule: string, rows: seq<string>)
    requires '\n' !in header && '\n' !in rule
    requires forall i :: 0 <= i < |rows| ==> '\n' !in rows[i]
    ensures var lines := [header, rule] + rows + [""];
      forall i :: 0 <= i < |lines| ==> '\n' !in lines[i]
  {
    var lines := [header, rule] + rows + [""];
    forall i | 0 <= i < |lines| ensures '\n' !in lines[i] {
      if 2 <= i < |lines| - 1 {
        assert lines[i] == rows[i - 2];
      }
    }
  }

  /** The rule and the final empty line are what the cleaning removes from a table. */
  lemma TableCleaned(header: string, rule: string, rows: seq<string>)
    requires HasPrefix(rule, "-")
    ensures WithoutTrailingBlank(WithoutRule([header, rule] + rows + [""])) == [header] + rows
  {
    var lines := [header, rule] + rows + [""];
    assert lines[1] == rule;
    var body := [header] + lines[2..];
    assert lines[2..] == rows + [""];
    assert body == ([header] + rows) + [""];
    assert body[..|body| - 1] == [header] + rows;
  }

  /**
   * A table as a client prints it (header, rule, rows, final newline) comes
   * back as the header followed by the rows.
   */
  lemma TableRoundTrip(header: string, rule: string, rows: seq<string>)
    requires '\n' !in header && '\n' !in rule && HasPrefix(rule, "-")
    requires forall i :: 0 <= i < |rows| ==> '\n' !in rows[i]
    ensures Cleaned(Join([header, rule] + rows + [""], "\n")) == [header] + rows
  {
    TableLines(header, rule, rows);
    CleanedOfJoin([header, rule] + rows + [""]);
    TableCleaned(header, rule, rows);
  }

  /** Lines with neither a rule nor a trailing blank pass both clean-up steps unchanged. */
  lemma PlainLinesKept(lines: seq<string>)
    requires |lines| >= 1 && lines[|lines| - 1] != "" && !HasRule(lines)
    ensures WithoutTrailingBlank(WithoutRule(lines)) == lines
  {
  }

  /**
   * Text without a rule and without a final newline comes back line by line:
   * Cleaned undoes joining with newlines.
   */
  lemma PlainRoundTrip(lines: seq<string>)
    requires |lines| >= 1 && lines[|lines| - 1] != "" && !HasRule(lines)
    requires forall i :: 0 <= i < |lines| ==> '\n' !in lines[i]
    ensures Cleaned(Join(lines, "\n")) == lines
  {
    CleanedOfJoin(lines);
    PlainLinesKept(lines);
  }

  /** Only one trailing empty line goes: "a\n\n" gives ["a", ""]. */
  lemma OneTrailingBlankRemoved(lines: seq<string>)
    requires |lines| >= 1 && !HasRule(lines + ["", ""])
    requires forall i :: 0 <= i < |lines| ==> '\n' !in lines[i]
    ensures Cleaned(Join(lines + ["", ""], "\n")) == lines + [""]
  {
    BlankLines(lines);
    CleanedOfJoin(lines + ["", ""]);
    BlanksCleaned(lines);
  }

  lemma BlankLines(lines: seq<string>)
    requires forall i :: 0 <= i < |lines| ==> '\n' !in lines[i]
    ensures var all := lines + ["", ""];
      forall i :: 0 <= i < |all| ==> '\n' !in all[i]
  {
    var all := lines + ["", ""];
    forall i | 0 <= i < |all| ensures '\n' !in all[i] {
      if i < |lines| {
        assert all[i] == lines[i];
      }
    }
  }

  lemma BlanksCleaned(lines: seq<string>)
    requires |lines| >= 1 && !HasRule(lines + ["", ""])
    ensures WithoutTrailingBlank(WithoutRule(lines + ["", ""])) == lines + [""]
  {
    var all := lines + ["", ""];
    assert all[..|all| - 1] == lines + [""];
  }
}
