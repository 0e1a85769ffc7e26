/** `tokenize_line` (kaChing.py:51-70): the lexeme splitter of kaChing.py:56-58
    scans one line from left to right; each lexeme it finds is classified, and
    a `#` ends the scan with a single-line comment token.

    The splitting expression is an alternation tried in order at each
    position: `#.*`, then a word run `\b\w+\b`, then a double- and a
    single-quoted literal, then any one non-space character `\S`. Every later
    alternative of that expression can only match where `\S` already does, so
    it never wins and is not modelled. Where nothing matches (white space),
    the scan moves on by one character. */
module LineLexer {
  import opened Wrappers
  import opened Strings
  import opened Lexicon
  import opened Classification

  /** The half-open range `[start, end)` of one lexeme in the line. */
  datatype Span = Span(start: nat, end: nat)

  /** What the splitting alternation matches at one position. */
  datatype Match = CommentMatch | LexemeMatch(end: nat) | NoMatch

  /** The end of the run of word characters that starts at `i`. */
  function WordEnd(line: string, i: nat): (e: nat)
    requires i <= |line|
    ensures i <= e <= |line|
    ensures forall p :: i <= p < e ==> IsWordChar(line[p])
    ensures e < |line| ==> !IsWordChar(line[e])
    decreases |line| - i
  {
    if i < |line| && IsWordChar(line[i]) then WordEnd(line, i + 1) else i
  }

  /** Where `.*` stops: the first line break at or after `i`, or the end. */
  function LineEnd(line: string, i: nat): (e: nat)
    requires i <= |line|
    ensures i <= e <= |line|
    ensures forall p :: i <= p < e ==> line[p] != '\n'
    ensures e < |line| ==> line[e] == '\n'
    decreases |line| - i
  {
    if i < |line| && line[i] != '\n' then LineEnd(line, i + 1) else i
  }

  /** The alternation of kaChing.py:57 at position `i`, alternatives in order. */
  function MatchAt(line: string, i: nat): (m: Match)
    requires i < |line|
    ensures m == CommentMatch <==> line[i] == '#'
    ensures m == NoMatch <==> IsSpace(line[i])
    ensures m.LexemeMatch? ==> i < m.end <= |line|
  {
    var c := line[i];
    if c == '#' then CommentMatch
    else if IsWordChar(c) && (i == 0 || !IsWordChar(line[i - 1])) then LexemeMatch(WordEnd(line, i))
    else if (c == '"' || c == '\'') && QuotedEnd(line, i + 1, c).Some? then LexemeMatch(QuotedEnd(line, i + 1, c).value)
    else if !IsSpace(c) then LexemeMatch(i + 1)
    else NoMatch
  }

  /** The lexemes the `re.finditer` loop of kaChing.py:56-69 meets from
      position `i` on, up to the first `#`. */
  function LexemesFrom(line: string, i: nat): seq<string>
    requires i <= |line|
    decreases |line| - i
  {
    if i == |line| then []
    else
      match MatchAt(line, i)
      case CommentMatch => []
      case NoMatch => LexemesFrom(line, i + 1)
      case LexemeMatch(e) => [line[i..e]] + LexemesFrom(line, e)
  }

  /** Each lexeme with the kind the table gives it (kaChing.py:64-69). */
  function Classified(ws: seq<string>): (ts: seq<Token>)
    ensures |ts| == |ws|
    ensures forall k :: 0 <= k < |ws| ==> ts[k] == Token(Classify(ws[k]), ws[k])
  {
    seq(|ws|, k requires 0 <= k < |ws| => Token(Classify(ws[k]), ws[k]))
  }

  /** The comment token the same loop ends with, if it meets a `#`: the text
      from the `#` to the end of the line (kaChing.py:60-62). */
  function CommentFrom(line: string, i: nat): Option<Token>
    requires i <= |line|
    decreases |line| - i
  {
    if i == |line| then None
    else
      match MatchAt(line, i)
      case CommentMatch => Some(Token(SingleLineComment, line[i..LineEnd(line, i)]))
      case NoMatch => CommentFrom(line, i + 1)
      case LexemeMatch(e) => CommentFrom(line, e)
  }

  /** The first result of `tokenize_line`: the classified lexemes. */
  function CodeTokens(line: string): seq<Token> {
    Classified(LexemesFrom(line, 0))
  }

  /** The second result of `tokenize_line`. */
  function CommentToken(line: string): Option<Token> {
    CommentFrom(line, 0)
  }

  /** Where the lexemes of the same loop lie in the line, from position `i` on. */
  function Spans(line: string, i: nat): (spans: seq<Span>)
    requires i <= |line|
    ensures forall k :: 0 <= k < |spans| ==> i <= spans[k].start < spans[k].end <= |line|
    decreases |line| - i
  {
    if i == |line| then []
    else
      match MatchAt(line, i)
      case CommentMatch => []
      case NoMatch => Spans(line, i + 1)
      case LexemeMatch(e) => [Span(i, e)] + Spans(line, e)
  }

  /** Where the comment that stops the loop starts, if there is one. */
  function CommentStart(line: string, i: nat): (c: Option<nat>)
    requires i <= |line|
    ensures c.Some? ==> i <= c.value < |line| && line[c.value] == '#'
    decreases |line| - i
  {
    if i == |line| then None
    else
      match MatchAt(line, i)
      case CommentMatch => Some(i)
      case NoMatch => CommentStart(line, i + 1)
      case LexemeMatch(e) => CommentStart(line, e)
  }

  /** Where the code part of the line ends: at the comment, or at the end. */
  function CodeLimit(line: string, i: nat): (n: nat)
    requires i <= |line|
    ensures i <= n <= |line|
  {
    match CommentStart(line, i)
    case None => |line|
    case Some(c) => c
  }

  /** A `#` ends the scan. */
  lemma StepComment(line: string, i: nat)
    requires i < |line| && MatchAt(line, i) == CommentMatch
    ensures LexemesFrom(line, i) == [] && Spans(line, i) == []
    ensures CommentStart(line, i) == Some(i)
    ensures CommentFrom(line, i) == Some(Token(SingleLineComment, line[i..LineEnd(line, i)]))
  {
  }

  /** White space is passed over. */
  lemma StepSpace(line: string, i: nat)
    requires i < |line| && MatchAt(line, i) == NoMatch
    ensures LexemesFrom(line, i) == LexemesFrom(line, i + 1) && Spans(line, i) == Spans(line, i + 1)
    ensures CommentStart(line, i) == CommentStart(line, i + 1)
    ensures CommentFrom(line, i) == CommentFrom(line, i + 1)
  {
  }

  /** A lexeme gives one token and one span, and the scan goes on after it. */
  lemma StepLexeme(line: string, i: nat)
    requires i < |line| && MatchAt(line, i).LexemeMatch?
    ensures var e, w := MatchAt(line, i).end, line[i..MatchAt(line, i).end];
      && LexemesFrom(line, i) == [w] + LexemesFrom(line, e)
      && Spans(line, i) == [Span(i, e)] + Spans(line, e)
      && CommentStart(line, i) == CommentStart(line, e)
      && CommentFrom(line, i) == CommentFrom(line, e)
  {
  }

  /** The text of a span. */
  function Text(line: string, s: Span): string
    requires s.start <= s.end <= |line|
  {
    line[s.start..s.end]
  }

  /** The tokens are the spans' texts, in order, each with the kind the table
      gives it. */
  lemma TokensFollowSpans(line: string)
    ensures var code, spans := CodeTokens(line), Spans(line, 0);
      && |code| == |spans|
      && forall k :: 0 <= k < |code| ==>
           code[k].lexeme == Text(line, spans[k]) && code[k].kind == Classify(code[k].lexeme)
  {
    SameCount(line, 0);
    forall k | 0 <= k < |LexemesFrom(line, 0)|
      ensures LexemesFrom(line, 0)[k] == Text(line, Spans(line, 0)[k])
    {
      LexemeAt(line, 0, k);
    }
  }

  /** There are as many lexemes as spans. */
  lemma {:induction false} SameCount(line: string, i: nat)
    requires i <= |line|
    ensures |LexemesFrom(line, i)| == |Spans(line, i)|
    decreases |line| - i
  {
    if i < |line| {
      var m := MatchAt(line, i);
      if m.CommentMatch? {
        StepComment(line, i);
      } else if m.NoMatch? {
        StepSpace(line, i);
        SameCount(line, i + 1);
      } else {
        StepLexeme(line, i);
        SameCount(line, m.end);
      }
    }
  }

  /** The lexeme at position `k` is the text of the span at position `k`. */
  lemma {:induction false} LexemeAt(line: string, i: nat, k: nat)
    requires i <= |line|
    ensures k < |LexemesFrom(line, i)| && k < |Spans(line, i)| ==>
      LexemesFrom(line, i)[k] == Text(line, Spans(line, i)[k])
    decreases |line| - i
  {
    if i < |line| {
      var m := MatchAt(line, i);
      if m.CommentMatch? {
        StepComment(line, i);
      } else if m.NoMatch? {
        StepSpace(line, i);
        LexemeAt(line, i + 1, k);
      } else {
        StepLexeme(line, i);
        if k > 0 {
          LexemeAt(line, m.end, k - 1);
        }
      }
    }
  }

  /** The comment token is the text from the first `#` outside a lexeme to
      the end of the line. */
  lemma {:induction false} CommentFollowsSpans(line: string, i: nat)
    requires i <= |line|
    ensures CommentFrom(line, i)
      == match CommentStart(line, i)
         case None => None
         case Some(c) => Some(Token(SingleLineComment, line[c..LineEnd(line, c)]))
    decreases |line| - i
  {
    if i < |line| {
      match MatchAt(line, i)
      case CommentMatch =>
      case NoMatch =>
        CommentFollowsSpans(line, i + 1);
      case LexemeMatch(e) =>
        CommentFollowsSpans(line, e);
    }
  }

  /** The scan from a span's start goes on exactly as the scan that met it:
      the spans from position `k` on, and the comment, are the same. */
  lemma {:induction false} SuffixFrom(line: string, i: nat, k: nat)
    requires i <= |line|
    ensures var spans := Spans(line, i);
      k < |spans| ==>
        && spans[k..] == Spans(line, spans[k].start)
        && CommentStart(line, i) == CommentStart(line, spans[k].start)
    decreases |line| - i
  {
    if i < |line| {
      var m := MatchAt(line, i);
      if m.CommentMatch? {
        StepComment(line, i);
      } else if m.NoMatch? {
        StepSpace(line, i);
        SuffixFrom(line, i + 1, k);
      } else {
        StepLexeme(line, i);
        var spans := Spans(line, i);
        if 0 < k < |spans| {
          SuffixFrom(line, m.end, k - 1);
          assert spans[k..] == Spans(line, m.end)[k - 1..];
        }
      }
    }
  }

  /** A span's start holds a lexeme match: what comes after its end is
      scanned afresh. */
  lemma SpanStep(line: string, k: nat)
    ensures var spans := Spans(line, 0);
      k < |spans| ==>
        && MatchAt(line, spans[k].start) == LexemeMatch(spans[k].end)
        && spans[k + 1..] == Spans(line, spans[k].end)
        && CommentStart(line, 0) == CommentStart(line, spans[k].end)
  {
    var spans := Spans(line, 0);
    if k < |spans| {
      SuffixFrom(line, 0, k);
      var s := spans[k];
      var m := MatchAt(line, s.start);
      assert Spans(line, s.start)[0] == s;
      if !m.LexemeMatch? {
        assert false;
      }
      StepLexeme(line, s.start);
      assert spans[k + 1..] == spans[k..][1..];
    }
  }

  /** Each span is exactly what the alternation matches where it starts. */
  lemma SpansAreMatches(line: string)
    ensures var spans := Spans(line, 0);
      forall k :: 0 <= k < |spans| ==> MatchAt(line, spans[k].start) == LexemeMatch(spans[k].end)
  {
    var spans := Spans(line, 0);
    forall k | 0 <= k < |spans|
      ensures MatchAt(line, spans[k].start) == LexemeMatch(spans[k].end)
    {
      SpanStep(line, k);
    }
  }

  /** The lexemes come left to right and never overlap. */
  lemma SpansInOrder(line: string)
    ensures var spans := Spans(line, 0);
      forall k, l :: 0 <= k < l < |spans| ==> spans[k].end <= spans[l].start
  {
    var spans := Spans(line, 0);
    forall k, l | 0 <= k < l < |spans|
      ensures spans[k].end <= spans[l].start
    {
      SpanStep(line, k);
      assert spans[l] == spans[k + 1..][l - k - 1];
    }
  }

  /** Every lexeme lies before the comment: nothing after the `#` is
      classified. */
  lemma SpansBeforeComment(line: string)
    ensures var spans := Spans(line, 0);
      forall k :: 0 <= k < |spans| ==> spans[k].end <= CodeLimit(line, 0)
  {
    var spans := Spans(line, 0);
    forall k | 0 <= k < |spans|
      ensures spans[k].end <= CodeLimit(line, 0)
    {
      SpanStep(line, k);
    }
  }

  /** Position `p` lies in one of the spans. */
  predicate Covered(spans: seq<Span>, p: nat) {
    exists k :: 0 <= k < |spans| && spans[k].start <= p < spans[k].end
  }

  lemma CoveredCons(s: Span, rest: seq<Span>, p: nat)
    requires s.start <= p < s.end || Covered(rest, p)
    ensures Covered([s] + rest, p)
  {
    var spans := [s] + rest;
    if s.start <= p < s.end {
      assert spans[0] == s;
    } else {
      var k :| 0 <= k < |rest| && rest[k].start <= p < rest[k].end;
      assert spans[k + 1] == rest[k];
    }
  }

  /** Every character before the comment that is not white space lies in a
      lexeme (and, the lexemes being disjoint, in exactly one). */
  lemma {:induction false} NothingSkipped(line: string, i: nat)
    requires i <= |line|
    ensures forall p :: i <= p < CodeLimit(line, i) && !IsSpace(line[p]) ==> Covered(Spans(line, i), p)
    decreases |line| - i
  {
    if i < |line| {
      match MatchAt(line, i)
      case CommentMatch =>
      case NoMatch =>
        NothingSkipped(line, i + 1);
        var spans := Spans(line, i);
        assert spans == Spans(line, i + 1);
        assert CodeLimit(line, i) == CodeLimit(line, i + 1);
        forall p | i <= p < CodeLimit(line, i) && !IsSpace(line[p])
          ensures Covered(spans, p)
        {
          assert p != i;
        }
      case LexemeMatch(e) =>
        NothingSkipped(line, e);
        var spans, rest := Spans(line, i), Spans(line, e);
        assert spans == [Span(i, e)] + rest;
        assert CodeLimit(line, i) == CodeLimit(line, e);
        forall p | i <= p < CodeLimit(line, i) && !IsSpace(line[p])
          ensures Covered(spans, p)
        {
          CoveredCons(Span(i, e), rest, p);
        }
    }
  }

  /** `tokenize_line`: scan, classify each lexeme, stop at the comment. */
  method TokenizeLine(line: string) returns (code: seq<Token>, comment: Option<Token>)
    ensures code == CodeTokens(line)
    ensures comment == CommentToken(line)
  {
    code := [];
    comment := None;
    ghost var ws: seq<string> := [];
    var i := 0;
    while i < |line|
      invariant i <= |line|
      invariant ws + LexemesFrom(line, i) == LexemesFrom(line, 0)
      invariant code == Classified(ws)
      invariant CommentFrom(line, i) == CommentToken(line)
      decreases |line| - i
    {
      match MatchAt(line, i)
      case CommentMatch =>
        comment := Some(Token(SingleLineComment, line[i..LineEnd(line, i)]));
        break;
      case NoMatch =>
        i := i + 1;
      case LexemeMatch(e) =>
        var w := line[i..e];
        var kind := ClassifyLexeme(w);
        code := code + [Token(kind, w)];
        ws := ws + [w];
        i := e;
    }
  }

  /** The scan never stops inside a run of word characters. */
  predicate NotMidWord(line: string, i: nat)
    requires i <= |line|
  {
    i == 0 || i == |line| || !IsWordChar(line[i - 1]) || !IsWordChar(line[i])
  }

  /** The three shapes a lexeme can have: a whole run of word characters
      (`\b\w+\b`), a quoted literal, or one character that is neither a word
      character, nor white space, nor `#` (`\S`). */
  predicate SpanShape(line: string, s: Span)
    requires s.start < s.end <= |line|
  {
    var w := Text(line, s);
    || (AllWordChars(w) && NotMidWord(line, s.start) && NotMidWord(line, s.end))
    || IsQuoted(w, '"')
    || IsQuoted(w, '\'')
    || (|w| == 1 && !IsWordChar(w[0]) && !IsSpace(w[0]) && w[0] != '#')
  }

  /** A quoted literal found in the line is a quoted literal on its own. */
  lemma {:induction false} QuotedSlice(line: string, i: nat, j: nat, q: char)
    requires i < j <= |line|
    requires QuotedEnd(line, j, q).Some?
    ensures var e := QuotedEnd(line, j, q).value;
      QuotedEnd(line[i..e], j - i, q) == Some(e - i)
    decreases |line| - j
  {
    var e := QuotedEnd(line, j, q).value;
    var w := line[i..e];
    assert w[j - i] == line[j];
    if line[j] == q {
    } else if line[j] == '\\' {
      QuotedSlice(line, i, j + 2, q);
      assert w[j - i + 1] == line[j + 1];
    } else {
      QuotedSlice(line, i, j + 1, q);
    }
  }

  /** What the alternation matches at a position the scan reaches has one of
      the three shapes, and the scan goes on at a position it can reach. */
  lemma MatchShape(line: string, i: nat)
    requires i < |line| && NotMidWord(line, i) && MatchAt(line, i).LexemeMatch?
    ensures SpanShape(line, Span(i, MatchAt(line, i).end))
    ensures NotMidWord(line, MatchAt(line, i).end)
  {
    var c := line[i];
    var e := MatchAt(line, i).end;
    var w := line[i..e];
    if IsWordChar(c) {
      assert AllWordChars(w) by {
        forall p | 0 <= p < |w| ensures IsWordChar(w[p]) {
          assert w[p] == line[i + p];
        }
      }
    } else if (c == '"' || c == '\'') && QuotedEnd(line, i + 1, c).Some? {
      QuotedSlice(line, i, i + 1, c);
    }
  }

  /** Every span starts at a position the scan can reach. */
  lemma {:induction false} StartAt(line: string, i: nat, k: nat)
    requires i <= |line| && NotMidWord(line, i)
    ensures k < |Spans(line, i)| ==> NotMidWord(line, Spans(line, i)[k].start)
    decreases |line| - i
  {
    if i < |line| {
      var m := MatchAt(line, i);
      if m.CommentMatch? {
        StepComment(line, i);
      } else if m.NoMatch? {
        StepSpace(line, i);
        assert !IsWordChar(line[i]);
        StartAt(line, i + 1, k);
      } else {
        StepLexeme(line, i);
        MatchShape(line, i);
        if k > 0 {
          StartAt(line, m.end, k - 1);
          var spans := Spans(line, i);
          if k < |spans| {
            assert spans[k] == Spans(line, m.end)[k - 1];
          }
        }
      }
    }
  }

  /** Every span has one of the three shapes. */
  lemma ShapeAt(line: string, k: nat)
    ensures k < |Spans(line, 0)| ==> SpanShape(line, Spans(line, 0)[k])
  {
    var spans := Spans(line, 0);
    if k < |spans| {
      SpanStep(line, k);
      StartAt(line, 0, k);
      MatchShape(line, spans[k].start);
    }
  }

  /** The kind the table gives a lexeme, read off its shape: word runs as
      `WordKind` says, double-quoted literals are `STRING_LITERAL`,
      single-quoted ones `UNKNOWN`, single symbols as `SymbolKind` says. */
  function ShapeKind(w: string): TokenKind {
    if AllWordChars(w) then WordKind(w)
    else if IsQuoted(w, '"') then StringLiteral
    else if IsQuoted(w, '\'') then Unknown
    else if |w| == 1 then SymbolKind(w[0])
    else Unknown
  }

  /** A lexeme of one of the three shapes gets the kind its shape says. */
  lemma ShapeClassification(w: string)
    requires || AllWordChars(w) || IsQuoted(w, '"') || IsQuoted(w, '\'')
             || (|w| == 1 && !IsWordChar(w[0]) && !IsSpace(w[0]) && w[0] != '#')
    ensures Classify(w) == ShapeKind(w)
  {
    if AllWordChars(w) {
      WordClassification(w);
    } else if IsQuoted(w, '"') {
      DoubleQuotedIsString(w);
    } else if IsQuoted(w, '\'') {
      SingleQuotedIsUnknown(w);
    } else {
      assert w == [w[0]];
      SymbolClassification(w[0]);
    }
  }

  /** The code token at position `k` has the kind its shape says, and starts
      with a character that is not white space. */
  lemma CodeKindAt(line: string, k: nat)
    ensures var code := CodeTokens(line);
      k < |code| ==>
        code[k].kind == ShapeKind(code[k].lexeme) && code[k].lexeme != [] && !IsSpace(code[k].lexeme[0])
  {
    var code := CodeTokens(line);
    TokensFollowSpans(line);
    if k < |code| {
      ShapeAt(line, k);
      ShapeClassification(code[k].lexeme);
    }
  }

  /** Every code token of a line has the kind its shape says. */
  lemma CodeKinds(line: string)
    ensures forall t :: t in CodeTokens(line) ==>
      t.kind == ShapeKind(t.lexeme) && t.lexeme != [] && !IsSpace(t.lexeme[0])
  {
    var code := CodeTokens(line);
    forall t | t in code
      ensures t.kind == ShapeKind(t.lexeme) && t.lexeme != [] && !IsSpace(t.lexeme[0])
    {
      var k :| 0 <= k < |code| && code[k] == t;
      CodeKindAt(line, k);
    }
  }

  /** The kinds a run of word characters can get. */
  lemma WordKindRange(w: string)
    ensures var k := WordKind(w);
      k == Keywords || k == ReservedWords || k == IntLiteral || k == Identifier || k == Unknown
  {
  }

  /** The kinds no shape gives: the two-character operators and bindings
      (the splitter cuts them into single characters), comments, white space,
      and the shadowed `VALUE_SIGN` and `NEWLINE`. */
  lemma ShapeKindNever(w: string)
    ensures var k := ShapeKind(w);
      && k != UnaryOperator && k != DataBindingStart && k != DataBindingEnd
      && k != SingleLineComment && k != MultiLineComment && k != WhiteSpace
      && k != ValueSign && k != Newline
  {
    if AllWordChars(w) {
      WordKindRange(w);
    }
  }

  /** No code token is white space, a comment, or one of the kinds only
      two-character lexemes could have. */
  lemma CodeKindsNever(line: string)
    ensures forall t :: t in CodeTokens(line) ==>
      && t.kind != UnaryOperator && t.kind != DataBindingStart && t.kind != DataBindingEnd
      && t.kind != SingleLineComment && t.kind != MultiLineComment && t.kind != WhiteSpace
      && t.kind != ValueSign && t.kind != Newline
  {
    CodeKinds(line);
    forall t | t in CodeTokens(line)
      ensures && t.kind != UnaryOperator && t.kind != DataBindingStart && t.kind != DataBindingEnd
              && t.kind != SingleLineComment && t.kind != MultiLineComment && t.kind != WhiteSpace
              && t.kind != ValueSign && t.kind != Newline
    {
      ShapeKindNever(t.lexeme);
    }
  }

  /** A character lies in at most one lexeme. */
  lemma CoveredOnce(line: string, p: nat, k: nat, l: nat)
    requires var spans := Spans(line, 0);
      && k < |spans| && l < |spans|
      && spans[k].start <= p < spans[k].end && spans[l].start <= p < spans[l].end
    ensures k == l
  {
    SpansInOrder(line);
  }

  /** `a==b`: the splitter cuts `==` into two assignment signs, so the
      relation operator is never seen. */
  lemma EqualityIsTwoAssignments()
    ensures LexemesFrom("a==b", 0) == ["a", "=", "=", "b"]
    ensures CodeTokens("a==b")[1] == CodeTokens("a==b")[2] == Token(OperatorAssignment, "=")
  {
    var line := "a==b";
    assert LexemesFrom(line, 4) == [];
    assert MatchAt(line, 3) == LexemeMatch(4);
    assert line[3..4] == "b";
    StepLexeme(line, 3);
    assert MatchAt(line, 2) == LexemeMatch(3);
    assert line[2..3] == "=";
    StepLexeme(line, 2);
    assert MatchAt(line, 1) == LexemeMatch(2);
    assert line[1..2] == "=";
    StepLexeme(line, 1);
    assert MatchAt(line, 0) == LexemeMatch(1);
    assert line[0..1] == "a";
    StepLexeme(line, 0);
    AssignmentSign();
  }

  /** `x #a=1`: the comment is the text from `#` on, and nothing after the
      `#` is classified. */
  lemma CommentExample()
    ensures CommentToken("x #a=1") == Some(Token(SingleLineComment, "#a=1"))
    ensures LexemesFrom("x #a=1", 0) == ["x"]
  {
    var line := "x #a=1";
    assert MatchAt(line, 2) == CommentMatch;
    assert LineEnd(line, 2) == |line|;
    assert line[2..6] == "#a=1";
    StepComment(line, 2);
    assert MatchAt(line, 1) == NoMatch;
    StepSpace(line, 1);
    assert MatchAt(line, 0) == LexemeMatch(1);
    assert line[0..1] == "x";
    StepLexeme(line, 0);
  }
}
