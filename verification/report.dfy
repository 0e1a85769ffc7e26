/** The per-line report of kaChing (kaChing.py:523-544): the input is cut
    into lines, each non-blank line is stripped, its code tokens are
    validated, and the table pairs each such line with the validator's
    message. Before the table is built, a first pass runs the validator on
    every line to display the errors, so an `IndexError` raised by the
    validator on any line ends the program before any table exists. */
module Report {
  import opened Wrappers
  import opened Strings
  import opened Lexicon
  import opened LineLexer
  import opened Validator

  /** One row of the results table: a stripped line and what the validator
      says about it. */
  datatype Row = Row(line: string, verdict: Verdict)

  /** What the program does with one stripped line:
      `syntax_analyzer(tokenize_line(line)[0])`. */
  function LineVerdict(line: string): Verdict {
    Analyze(CodeTokens(line))
  }

  /** Every line of the input stripped of its surrounding whitespace. */
  function Stripped(lines: seq<string>): (ls: seq<string>)
    ensures |ls| == |lines|
  {
    seq(|lines|, k requires 0 <= k < |lines| => Strip(lines[k]))
  }

  /** The row of one stripped line; a blank line has none. The row
      functions take the per-line verdict as a parameter, `LineVerdict` in
      the program. */
  function RowOf(judge: string -> Verdict, line: string): Option<Row> {
    if line == [] then None else Some(Row(line, judge(line)))
  }

  /** The rows of the stripped lines, in the order of the lines. */
  function Rows(judge: string -> Verdict, lines: seq<string>): seq<Row>
    decreases |lines|
  {
    if lines == [] then []
    else
      var init := Rows(judge, lines[..|lines| - 1]);
      match RowOf(judge, lines[|lines| - 1])
      case None => init
      case Some(r) => init + [r]
  }

  /** Some row's validation raised. */
  predicate Crashes(rows: seq<Row>) {
    exists k :: 0 <= k < |rows| && rows[k].verdict == Crash
  }

  /** The table the program builds, or `None` when the validator raises on
      some line. */
  function Report(input: string): Option<seq<Row>> {
    var rows := Rows(LineVerdict, Stripped(Split(input, '\n')));
    if Crashes(rows) then None else Some(rows)
  }

  /** The rows of a concatenation are the rows of each part. */
  lemma {:induction false} RowsAppend(judge: string -> Verdict, a: seq<string>, b: seq<string>)
    ensures Rows(judge, a + b) == Rows(judge, a) + Rows(judge, b)
    decreases |b|
  {
    if b != [] {
      var c := b[..|b| - 1];
      var last := b[|b| - 1];
      assert (a + b)[..|a + b| - 1] == a + c;
      assert (a + b)[|a + b| - 1] == last;
      RowsAppend(judge, a, c);
      match RowOf(judge, last)
      case None =>
      case Some(r) =>
        assert Rows(judge, a + b) == Rows(judge, a + c) + [r];
        assert Rows(judge, b) == Rows(judge, c) + [r];
    } else {
      assert a + b == a;
    }
  }

  /** The rows of a single line. */
  lemma RowsSingle(judge: string -> Verdict, line: string)
    ensures Rows(judge, [line]) == match RowOf(judge, line) case None => [] case Some(r) => [r]
  {
    assert [line][..0] == [];
  }

  /** The rows of the first `i + 1` lines. */
  lemma RowsPrefix(judge: string -> Verdict, lines: seq<string>, i: nat)
    requires i < |lines|
    ensures Rows(judge, lines[..i + 1]) ==
      match RowOf(judge, lines[i]) case None => Rows(judge, lines[..i]) case Some(r) => Rows(judge, lines[..i]) + [r]
  {
    assert lines[..i + 1][..i] == lines[..i];
  }

  /** A line whose verdict is a crash makes the whole report crash. */
  lemma CrashSpreads(judge: string -> Verdict, lines: seq<string>, i: nat)
    requires i < |lines| && RowOf(judge, lines[i]).Some? && RowOf(judge, lines[i]).value.verdict == Crash
    ensures Crashes(Rows(judge, lines))
  {
    var r := RowOf(judge, lines[i]).value;
    var head := Rows(judge, lines[..i + 1]);
    assert head == Rows(judge, lines[..i]) + [r] by {
      RowsPrefix(judge, lines, i);
    }
    assert Rows(judge, lines) == head + Rows(judge, lines[i + 1..]) by {
      assert lines == lines[..i + 1] + lines[i + 1..];
      RowsAppend(judge, lines[..i + 1], lines[i + 1..]);
    }
    assert Rows(judge, lines)[|head| - 1] == r;
  }

  /** Every row holds one of the non-blank lines and the verdict on it;
      without blank lines there is one row per line. */
  lemma {:induction false} RowsShape(judge: string -> Verdict, lines: seq<string>)
    ensures |Rows(judge, lines)| <= |lines|
    ensures forall k :: 0 <= k < |Rows(judge, lines)| ==>
      && Rows(judge, lines)[k].line in lines
      && Rows(judge, lines)[k].line != []
      && Rows(judge, lines)[k].verdict == judge(Rows(judge, lines)[k].line)
    ensures [] !in lines ==> |Rows(judge, lines)| == |lines|
    decreases |lines|
  {
    if lines != [] {
      var init := lines[..|lines| - 1];
      RowsShape(judge, init);
      assert forall l :: l in init ==> l in lines;
      if [] !in lines {
        assert [] !in init;
      }
    }
  }

  /** The stripped lines are the lines of the input with their surrounding
      whitespace removed, and stripping them again changes nothing. */
  lemma StrippedLines(lines: seq<string>)
    ensures forall k :: 0 <= k < |lines| ==> Stripped(lines)[k] == Strip(lines[k])
    ensures forall l :: l in Stripped(lines) ==> Strip(l) == l
  {
    forall l | l in Stripped(lines)
      ensures Strip(l) == l
    {
      var k :| 0 <= k < |lines| && Stripped(lines)[k] == l;
      StripIdempotent(lines[k]);
    }
  }

  /** Joining lines that hold no line break and reading them back gives one
      row per non-blank line, in order. */
  lemma ReportOfLines(lines: seq<string>)
    requires |lines| >= 1
    requires forall k :: 0 <= k < |lines| ==> '\n' !in lines[k]
    ensures Report(Join(lines, '\n')) ==
      var rows := Rows(LineVerdict, Stripped(lines));
      if Crashes(rows) then None else Some(rows)
  {
    SplitJoin(lines, '\n');
  }

  /** A line of code never reaches the comment handling of the validator:
      its tokens hold no multi-line comment, so each one is checked. */
  lemma LineAllChecked(line: string)
    ensures forall j :: 0 <= j < |CodeTokens(line)| ==> Checked(Steps(CodeTokens(line)), j)
  {
    var ts := CodeTokens(line);
    CodeKindsNever(line);
    forall j | 0 <= j < |ts|
      ensures !Steps(ts)[j].opens
    {
      StepAt(ts, |ts|, j);
      assert ts[j] in ts;
    }
    NoOpenerAllChecked(Steps(ts), |ts|);
  }

  /** On a line of code, the first token whose checker answers decides the
      verdict. */
  lemma LineAnswer(line: string, j: nat)
    requires j < |CodeTokens(line)| && Check(CodeTokens(line), j).Done?
    requires forall k :: 0 <= k < j ==> !Check(CodeTokens(line), k).Done?
    ensures Check(CodeTokens(line), j) == Done(Analyze(CodeTokens(line)))
  {
    var ts := CodeTokens(line);
    LineAllChecked(line);
    forall k | 0 <= k <= j
      ensures Steps(ts)[k].outcome == Check(ts, k)
    {
      StepAt(ts, |ts|, k);
    }
    AnalyzeAnswer(ts, j);
  }

  /** On a line of code where no checker answers, the verdict is the summary
      of the declarations found; a line without code is `Invalid Syntax`. */
  lemma LineSummary(line: string)
    requires forall k :: 0 <= k < |CodeTokens(line)| ==> !Check(CodeTokens(line), k).Done?
    ensures Analyze(CodeTokens(line)) == Message(Summary(DeclaredBetween(Steps(CodeTokens(line)), 0, |CodeTokens(line)|)))
    ensures CodeTokens(line) == [] ==> Analyze(CodeTokens(line)) == Message(InvalidSyntax)
  {
    var ts := CodeTokens(line);
    forall k | 0 <= k < |ts|
      ensures !Answers(Steps(ts), k)
    {
      StepAt(ts, |ts|, k);
    }
    AnalyzeSummary(ts);
  }

  /** A line holding only a comment has no code, so the validator says
      `Invalid Syntax` about it. */
  lemma CommentLineVerdict()
    ensures LineVerdict("# note") == Message(InvalidSyntax)
  {
    var line := "# note";
    assert MatchAt(line, 0) == CommentMatch;
    StepComment(line, 0);
    assert CodeTokens(line) == [];
  }

  /** The input `# note`, a line break and two spaces is a comment line
      and a blank line. */
  lemma CommentAndBlankLines()
    ensures Split("# note\n  ", '\n') == ["# note", "  "]
    ensures Stripped(["# note", "  "]) == ["# note", ""]
  {
    assert Join(["# note", "  "], '\n') == "# note\n  ";
    SplitJoin(["# note", "  "], '\n');
    StripKeeps("# note");
    assert Strip("  ") == [];
  }

  /** The blank line gives no row, and the comment line one that says
      `Invalid Syntax`. */
  lemma CommentLineIsInvalid()
    ensures Report("# note\n  ") == Some([Row("# note", Message(InvalidSyntax))])
  {
    CommentAndBlankLines();
    CommentLineVerdict();
    var ls := ["# note", ""];
    var row := Row("# note", Message(InvalidSyntax));
    assert Rows(LineVerdict, ls) == [row] by {
      RowsPrefix(LineVerdict, ls, 0);
      RowsPrefix(LineVerdict, ls, 1);
      assert ls[..0] == [] && ls[..2] == ls;
    }
    assert !Crashes([row]);
  }

  /** The verdict on one stripped line, as the program computes it. */
  method LineResult(line: string) returns (v: Verdict)
    ensures v == LineVerdict(line)
  {
    var code, _ := TokenizeLine(line);
    v := SyntaxAnalyzer(code);
  }

  /** The first pass over the lines (kaChing.py:528-535): it validates
      every non-blank line to display the errors, and an `IndexError` on any
      line ends the program. */
  method ErrorPass(lines: seq<string>) returns (crashed: bool)
    ensures crashed == Crashes(Rows(LineVerdict, Stripped(lines)))
  {
    ghost var stripped := Stripped(lines);
    for i := 0 to |lines|
      invariant !Crashes(Rows(LineVerdict, stripped[..i]))
    {
      RowsPrefix(LineVerdict, stripped, i);
      var line := Strip(lines[i]);
      if line != [] {
        var result := LineResult(line);
        if result == Crash {
          CrashSpreads(LineVerdict, stripped, i);
          return true;
        }
      }
    }
    assert stripped[..|lines|] == stripped;
    crashed := false;
  }

  /** The second pass (kaChing.py:538-544): one row per non-blank line. */
  method TablePass(lines: seq<string>) returns (rows: seq<Row>)
    ensures rows == Rows(LineVerdict, Stripped(lines))
  {
    ghost var stripped := Stripped(lines);
    rows := [];
    for i := 0 to |lines|
      invariant rows == Rows(LineVerdict, stripped[..i])
    {
      RowsPrefix(LineVerdict, stripped, i);
      var line := Strip(lines[i]);
      if line != [] {
        var result := LineResult(line);
        rows := rows + [Row(line, result)];
      }
    }
    assert stripped[..|lines|] == stripped;
  }

  /** The program's two passes over the lines of the input. */
  method Results(input: string) returns (report: Option<seq<Row>>)
    ensures report == Report(input)
  {
    var lines := Split(input, '\n');
    var crashed := ErrorPass(lines);
    if crashed {
      return None;
    }
    var rows := TablePass(lines);
    report := Some(rows);
  }
}
