/**
  The acceptance harness (test.py): each test names a script and the lines
  it must print. The script's standard output is split on '\n' and compared
  with the expected lines plus a trailing empty string; the harness counts
  the tests that pass and prints a summary. Running the script is outside
  the model: its output is given by the parameter `run`, from script name to
  captured stdout.
*/
module Harness {
  import opened Wrappers
  import Text

  /** One entry of the test table: the script name and the lines it must print. */
  datatype Test = Test(name: string, expected: seq<string>)

  /**
    One call of `run_and_compare`: whether it passed, the expected list as the
    call leaves it (with `''` appended in place), and the diagnostic it prints
    on failure.
  */
  datatype Comparison = Comparison(passed: bool, expected: seq<string>, diagnostic: Option<string>)

  // ---- Python's str.split and str.join on one separator character ----

  /** Position of the first `sep` in `s`, or `|s|` when there is none. */
  function IndexOf(s: string, sep: char): (i: nat)
    ensures i <= |s|
    ensures forall j :: 0 <= j < i ==> s[j] != sep
    ensures i < |s| ==> s[i] == sep
  {
    if |s| == 0 || s[0] == sep then 0 else 1 + IndexOf(s[1..], sep)
  }

  /** `sep.join(parts)`. */
  function Join(parts: seq<string>, sep: char): string
  {
    if |parts| == 0 then ""
    else if |parts| == 1 then parts[0]
    else parts[0] + [sep] + Join(parts[1..], sep)
  }

  /**
    `s.split(sep)`: the pieces between separators, so never empty; a
    separator at the end gives a final empty piece.
  */
  function Split(s: string, sep: char): (parts: seq<string>)
    ensures |parts| >= 1
    ensures forall k :: 0 <= k < |parts| ==> sep !in parts[k]
    ensures Join(parts, sep) == s
    decreases |s|
  {
    var i := IndexOf(s, sep);
    if i == |s| then [s]
    else
      var rest := Split(s[i + 1..], sep);
      assert s == s[..i] + [sep] + s[i + 1..];
      [s[..i]] + rest
  }

  /** What a program prints with one `println` per line: each line followed by '\n'. */
  function Lines(lines: seq<string>): string
  {
    if |lines| == 0 then "" else lines[0] + "\n" + Lines(lines[1..])
  }

  // ---- Python's %r of a list of strings ----

  function Repr(s: string): string
  {
    "'" + s + "'"
  }

  function ReprItems(items: seq<string>): (r: string)
    ensures |r| == 0 <==> |items| == 0
    ensures |items| > 0 ==> |r| >= 2 && r[0] == '\'' && r[|r| - 1] == '\''
  {
    if |items| == 0 then ""
    else if |items| == 1 then Repr(items[0])
    else Repr(items[0]) + ", " + ReprItems(items[1..])
  }

  function ReprList(items: seq<string>): (r: string)
    ensures |r| >= 2 && r[0] == '[' && r[|r| - 1] == ']'
    ensures r == "[]" <==> |items| == 0
  {
    "[" + ReprItems(items) + "]"
  }

  // ---- test.py ----

  /**
    `run_and_compare`: append `''` to the expected lines, split the script's
    output on '\n' and compare the two lists; on a mismatch, a diagnostic
    naming the test and showing both lists.
  */
  function RunAndCompare(file: string, expected: seq<string>, stdout: string): (r: Comparison)
    ensures r.expected == expected + [""]
    ensures r.passed <==> r.diagnostic.None?
  {
    var should := expected + [""];
    var split := Split(stdout, '\n');
    if split == should then Comparison(true, should, None)
    else Comparison(false, should, Some(file + " test failed: " + ReprList(split) + " != " + ReprList(should)))
  }

  /** The comparison of each test against the output its script gives. */
  function Outcomes(tests: seq<Test>, run: string -> string): (r: seq<Comparison>)
    ensures |r| == |tests|
  {
    seq(|tests|, k requires 0 <= k < |tests| => RunAndCompare(tests[k].name, tests[k].expected, run(tests[k].name)))
  }

  /** Reference count: how many of the comparisons passed. */
  function CountPasses(outcomes: seq<Comparison>): (n: nat)
    ensures n <= |outcomes|
  {
    if |outcomes| == 0 then 0
    else CountPasses(outcomes[..|outcomes| - 1]) + (if outcomes[|outcomes| - 1].passed then 1 else 0)
  }

  /** Reference output: the diagnostics of the failed comparisons, in order. */
  function Diagnostics(outcomes: seq<Comparison>): seq<string>
  {
    if |outcomes| == 0 then []
    else
      var c := outcomes[|outcomes| - 1];
      Diagnostics(outcomes[..|outcomes| - 1]) + (if c.diagnostic.Some? then [c.diagnostic.value] else [])
  }

  /** The summary line: `"\n%d / %d tests succeeded"`. */
  function Summary(successes: nat, total: nat): (r: string)
    ensures |r| > 17 && r[0] == '\n' && r[|r| - 16..] == " tests succeeded"
  {
    "\n" + Text.NatToString(successes) + " / " + Text.NatToString(total) + " tests succeeded"
  }

  /**
    The script's main loop: each test once, in table order, counting the
    passes; `printed` holds the arguments of the `print` calls in order.
  */
  method RunAll(tests: seq<Test>, run: string -> string) returns (successes: nat, printed: seq<string>)
    ensures successes == CountPasses(Outcomes(tests, run)) && successes <= |tests|
    ensures printed == Diagnostics(Outcomes(tests, run)) + [Summary(successes, |tests|)]
  {
    ghost var outcomes := Outcomes(tests, run);
    successes := 0;
    printed := [];
    var i := 0;
    while i < |tests|
      invariant 0 <= i <= |tests|
      invariant successes == CountPasses(outcomes[..i])
      invariant printed == Diagnostics(outcomes[..i])
    {
      var t := tests[i];
      var c := RunAndCompare(t.name, t.expected, run(t.name));
      assert c == outcomes[i];
      assert outcomes[..i + 1][..i] == outcomes[..i];
      if c.passed {
        successes := successes + 1;
      } else {
        printed := printed + [c.diagnostic.value];
      }
      i := i + 1;
    }
    assert outcomes[..i] == outcomes;
    printed := printed + [Summary(successes, |tests|)];
  }

  // ---- Properties ----

  /** Joining pieces that contain no separator and splitting again gives the pieces back. */
  lemma {:induction false} SplitOfJoin(parts: seq<string>, sep: char)
    requires |parts| >= 1 && forall k :: 0 <= k < |parts| ==> sep !in parts[k]
    ensures Split(Join(parts, sep), sep) == parts
  {
    if |parts| > 1 {
      var s := Join(parts, sep);
      var p := parts[0];
      assert s == p + [sep] + Join(parts[1..], sep);
      assert s[|p|] == sep;
      assert forall j :: 0 <= j < |p| ==> s[j] == p[j];
      assert p[..] == s[..|p|];
      IndexOfFirst(s, sep, |p|);
      assert s[|p| + 1..] == Join(parts[1..], sep);
      SplitOfJoin(parts[1..], sep);
    } else {
      IndexOfFirst(parts[0], sep, |parts[0]|);
    }
  }

  /** `IndexOf` finds the first separator. */
  lemma {:induction false} IndexOfFirst(s: string, sep: char, i: nat)
    requires i <= |s| && (forall j :: 0 <= j < i ==> s[j] != sep) && (i < |s| ==> s[i] == sep)
    ensures IndexOf(s, sep) == i
  {
  }

  /** Lines joined with '\n' and a final empty piece are the lines each followed by '\n'. */
  lemma {:induction false} JoinWithEmptyLast(lines: seq<string>)
    ensures Join(lines + [""], '\n') == Lines(lines)
  {
    if |lines| > 0 {
      assert (lines + [""])[0] == lines[0];
      assert (lines + [""])[1..] == lines[1..] + [""];
      JoinWithEmptyLast(lines[1..]);
    }
  }

  /**
    When no expected line contains '\n', a test passes exactly when the
    script printed the expected lines, each followed by '\n', and nothing else.
  */
  lemma {:induction false} PassesIffPrintsLines(file: string, expected: seq<string>, stdout: string)
    requires forall k :: 0 <= k < |expected| ==> '\n' !in expected[k]
    ensures RunAndCompare(file, expected, stdout).passed <==> stdout == Lines(expected)
  {
    var should := expected + [""];
    assert forall k :: 0 <= k < |should| ==> '\n' !in should[k];
    JoinWithEmptyLast(expected);
    if stdout == Lines(expected) {
      SplitOfJoin(should, '\n');
    }
  }

  /** A failing test prints exactly one diagnostic, which names it and shows both lists. */
  lemma {:induction false} FailureDiagnostic(file: string, expected: seq<string>, stdout: string)
    ensures var c := RunAndCompare(file, expected, stdout);
      !c.passed ==> c.diagnostic == Some(file + " test failed: " + ReprList(Split(stdout, '\n'))
                                         + " != " + ReprList(expected + [""]))
  {
  }

  /** All comparisons passed exactly when the count reaches their number. */
  lemma {:induction false} AllPassIff(outcomes: seq<Comparison>)
    ensures CountPasses(outcomes) == |outcomes| <==> forall k :: 0 <= k < |outcomes| ==> outcomes[k].passed
  {
    if |outcomes| > 0 {
      var init := outcomes[..|outcomes| - 1];
      AllPassIff(init);
      assert forall k :: 0 <= k < |init| ==> init[k] == outcomes[k];
    }
  }

  /** One diagnostic is printed per failed comparison. */
  lemma {:induction false} OneDiagnosticPerFailure(outcomes: seq<Comparison>)
    requires forall k :: 0 <= k < |outcomes| ==> (outcomes[k].passed <==> outcomes[k].diagnostic.None?)
    ensures |Diagnostics(outcomes)| == |outcomes| - CountPasses(outcomes)
  {
    if |outcomes| > 0 {
      OneDiagnosticPerFailure(outcomes[..|outcomes| - 1]);
    }
  }

  /** The table of test.py. */
  const Tests: seq<Test> := [
    Test("exp", ["4294967296", "256"]),
    Test("fibonacci", ["55"]),
    Test("counter", ["-3", "201"]),
    Test("object", ["o1", "o2", "o3", "o2"])
  ]

  /** The table has four tests with distinct names, and no expected line holds a '\n'. */
  lemma {:induction false} TestTable()
    ensures |Tests| == 4 && SingleLines(Tests)
    ensures forall k, m :: 0 <= k < m < |Tests| ==> Tests[k].name != Tests[m].name
  {
  }

  /** A test table whose expected lines hold no '\n'. */
  predicate SingleLines(tests: seq<Test>) {
    forall k, m :: 0 <= k < |tests| && 0 <= m < |tests[k].expected| ==> '\n' !in tests[k].expected[m]
  }

  /** When every script prints its expected lines, every test passes and no diagnostic is printed. */
  lemma {:induction false} AllPassWhenScriptsAgree(tests: seq<Test>, run: string -> string)
    requires SingleLines(tests)
    requires forall k :: 0 <= k < |tests| ==> run(tests[k].name) == Lines(tests[k].expected)
    ensures CountPasses(Outcomes(tests, run)) == |tests| && Diagnostics(Outcomes(tests, run)) == []
  {
    var outcomes := Outcomes(tests, run);
    forall k | 0 <= k < |tests|
      ensures outcomes[k].passed
    {
      PassesIffPrintsLines(tests[k].name, tests[k].expected, run(tests[k].name));
    }
    AllPassIff(outcomes);
    OneDiagnosticPerFailure(outcomes);
  }

  /** For the table of test.py: scripts that print what it expects give four passes. */
  lemma {:induction false} AllScriptsPass(run: string -> string)
    requires forall k :: 0 <= k < |Tests| ==> run(Tests[k].name) == Lines(Tests[k].expected)
    ensures CountPasses(Outcomes(Tests, run)) == 4 && Diagnostics(Outcomes(Tests, run)) == []
  {
    assert SingleLines(Tests);
    AllPassWhenScriptsAgree(Tests, run);
  }

  /**
    The summary line for any counts: a newline, the decimal number of
    passes, " / ", the decimal number of tests and " tests succeeded"; each
    number reads back from its digits.
  */
  lemma {:induction false} SummaryShape(successes: nat, total: nat)
    ensures exists d1: string, d2: string ::
      && |d1| > 0 && Text.AllDigits(d1) && Text.DigitsValue(d1) == successes
      && |d2| > 0 && Text.AllDigits(d2) && Text.DigitsValue(d2) == total
      && Summary(successes, total) == "\n" + d1 + " / " + d2 + " tests succeeded"
  {
    var d1 := Text.NatToString(successes);
    var d2 := Text.NatToString(total);
    assert Summary(successes, total) == "\n" + d1 + " / " + d2 + " tests succeeded";
  }

  /** Two summary lines are equal only when both counts are: the line determines them. */
  lemma {:induction false} SummaryDetermined(s1: nat, t1: nat, s2: nat, t2: nat)
    requires Summary(s1, t1) == Summary(s2, t2)
    ensures s1 == s2 && t1 == t2
  {
    var a1, b1 := Text.NatToString(s1), Text.NatToString(t1);
    var a2, b2 := Text.NatToString(s2), Text.NatToString(t2);
    var tail := " tests succeeded";
    SummaryParts(a1, b1);
    SummaryParts(a2, b2);
    CancelPrefix("\n", a1 + (" / " + (b1 + tail)), a2 + (" / " + (b2 + tail)));
    DigitsBeforeSpace(a1, " / " + (b1 + tail), a2, " / " + (b2 + tail));
    CancelPrefix(" / ", b1 + tail, b2 + tail);
    CancelSuffix(b1, b2, tail);
  }

  lemma {:induction false} SummaryParts(a: string, b: string)
    ensures "\n" + a + " / " + b + " tests succeeded" == "\n" + (a + (" / " + (b + " tests succeeded")))
  {
  }

  lemma {:induction false} CancelPrefix(p: string, x: string, y: string)
    requires p + x == p + y
    ensures x == y
  {
    assert x == (p + x)[|p|..];
    assert y == (p + y)[|p|..];
  }

  lemma {:induction false} CancelSuffix(x: string, y: string, q: string)
    requires x + q == y + q
    ensures x == y
  {
    assert x == (x + q)[..|x|];
    assert y == (y + q)[..|y|];
  }

  /** The number of digits a text starts with. */
  function DigitRun(s: string): (n: nat)
    ensures n <= |s|
  {
    if |s| == 0 || !Text.IsDigit(s[0]) then 0 else 1 + DigitRun(s[1..])
  }

  lemma {:induction false} DigitRunOf(a: string, r: string)
    requires Text.AllDigits(a) && |r| > 0 && !Text.IsDigit(r[0])
    ensures DigitRun(a + r) == |a|
    decreases |a|
  {
    if |a| == 0 {
      assert a + r == r;
    } else {
      assert (a + r)[1..] == a[1..] + r;
      DigitRunOf(a[1..], r);
    }
  }

  /** A run of digits followed by a space is split off the same way from equal texts. */
  lemma {:induction false} DigitsBeforeSpace(a1: string, r1: string, a2: string, r2: string)
    requires Text.AllDigits(a1) && Text.AllDigits(a2) && |r1| > 0 && |r2| > 0 && r1[0] == ' ' && r2[0] == ' '
    requires a1 + r1 == a2 + r2
    ensures a1 == a2 && r1 == r2
  {
    DigitRunOf(a1, r1);
    DigitRunOf(a2, r2);
    assert a1 == (a1 + r1)[..|a1|];
    assert a2 == (a2 + r2)[..|a2|];
    assert r1 == (a1 + r1)[|a1|..];
    assert r2 == (a2 + r2)[|a2|..];
  }
}
