// `tokenize` (kaChing.py:72-107): the whole input is split into lines and
// each line is tokenized, while `/* ... */` spans, which may run over
// several lines, are cut out and emitted as one `MULTI_LINE_COMMENT` token
// each.
//
// The output is modelled as Python builds it. Where the source writes
// `tokens.extend(tokenize_line(...))` it extends the list with the PAIR
// `(code_tokens, comment_token)`, so the list receives the list of code
// tokens as one element and the comment token (or `None`) as another; the
// final comprehension then drops `None` and empty lists.
//
// The scanner is stated for any line tokenizer `lex`, since it only passes
// pieces of lines to it; `tokenize` itself uses `tokenize_line`.
module CommentScanner {
  import opened Wrappers
  import opened Strings
  import opened Lexicon
  import opened LineLexer

  /** One element of the list `tokenize` builds: a `(kind, lexeme)` tuple, a
      list of tuples (the first half of a `tokenize_line` pair), or `None`
      (its second half when the line has no `#` comment). */
  datatype Entry = Item(token: Token) | List(tokens: seq<Token>) | Null

  /** The state of the loop: the list built so far, the text of the open
      comment (`multi_line_comment`) and whether a comment is open
      (`in_multi_line_comment`). */
  datatype Scan = Scan(entries: seq<Entry>, buffer: string, open: bool)

  const Start := Scan([], "", false)

  /** A function of the shape of `tokenize_line`: the code tokens of a piece
      of a line and its `#` comment, if any. */
  type LineTokenizer = string -> (seq<Token>, Option<Token>)

  /** `tokenize_line` itself. */
  const TokenizeLineFn: LineTokenizer := line => (CodeTokens(line), CommentToken(line))

  /** `tokens.extend(tokenize_line(code))`: the two halves of the pair. */
  function Pair(lex: LineTokenizer, code: string): (es: seq<Entry>)
    ensures |es| == 2 && es[0] == List(lex(code).0)
    ensures es[1] == if lex(code).1.Some? then Item(lex(code).1.value) else Null
  {
    [List(lex(code).0), match lex(code).1 case None => Null case Some(c) => Item(c)]
  }

  /** `tokens.extend(line_tokens)`: one tuple per code token. */
  function Items(ts: seq<Token>): (es: seq<Entry>)
    ensures |es| == |ts| && forall k :: 0 <= k < |ts| ==> es[k] == Item(ts[k])
  {
    seq(|ts|, k requires 0 <= k < |ts| => Item(ts[k]))
  }

  function CommentEntry(text: string): Entry {
    Item(Token(MultiLineComment, text))
  }

  // kaChing.py:89-105: a line met outside any open comment. A `/*` with a
  // later `*/` gives the prefix's pair, the comment and the suffix's pair;
  // a `/*` alone gives the prefix's pair and opens a comment; a line
  // without `/*` gives its code tokens.
  function Fresh(lex: LineTokenizer, st: Scan, line: string): Scan {
    var s := Find(line, "/*", 0);
    if s == -1 then
      Scan(st.entries + Items(lex(line).0), st.buffer, st.open)
    else
      var e := Find(line, "*/", s);
      if e == -1 then
        Scan(st.entries + Pair(lex, line[..s]), line[s + 2..] + "\n", true)
      else
        Scan(st.entries + Pair(lex, line[..s]) + [CommentEntry(Slice(line, s + 2, e))]
               + Pair(lex, line[e + 2..]), st.buffer, st.open)
  }

  // One turn of the loop of kaChing.py:77-105. Inside an open comment a line
  // without `*/` only adds itself to the comment; a line with `*/` closes
  // the comment and the rest of the line is met afresh.
  function Step(lex: LineTokenizer, st: Scan, line: string): Scan {
    if st.open then
      var e := Find(line, "*/", 0);
      if e == -1 then
        Scan(st.entries, st.buffer + line + "\n", true)
      else
        Fresh(lex, Scan(st.entries + [CommentEntry(st.buffer + line[..e])], "", false), line[e + 2..])
    else
      Fresh(lex, st, line)
  }

  /** The loop over `lines`, from state `st`. */
  function RunFrom(lex: LineTokenizer, st: Scan, lines: seq<string>): Scan
    decreases |lines|
  {
    if lines == [] then st else RunFrom(lex, Step(lex, st, lines[0]), lines[1..])
  }

  /** The loop over all the lines, from the initial state. */
  function Run(lex: LineTokenizer, lines: seq<string>): Scan {
    RunFrom(lex, Start, lines)
  }

  /** Python's truth value of an element: `None` and the empty list are false. */
  predicate Truthy(e: Entry) {
    e != Null && e != List([])
  }

  /** The comprehension of kaChing.py:105. */
  function Keep(es: seq<Entry>): seq<Entry>
    decreases |es|
  {
    if es == [] then []
    else (if Truthy(es[0]) then [es[0]] else []) + Keep(es[1..])
  }

  /** What `tokenize(input)` returns. */
  function TokenizeResult(input: string): seq<Entry> {
    Keep(Run(TokenizeLineFn, Split(input, '\n')).entries)
  }

  /** The tuples of the list read in order, with the nested lists opened. */
  function Flatten(es: seq<Entry>): seq<Token>
    decreases |es|
  {
    if es == [] then []
    else
      (match es[0] case Item(t) => [t] case List(ts) => ts case Null => []) + Flatten(es[1..])
  }

  /** The filter keeps exactly the true elements, so no `None` and no empty
      list is left, and it loses no tuple. */
  lemma {:induction false} KeepTruthy(es: seq<Entry>)
    ensures forall e :: e in Keep(es) <==> e in es && Truthy(e)
    ensures Flatten(Keep(es)) == Flatten(es)
    decreases |es|
  {
    if es != [] {
      KeepTruthy(es[1..]);
      FlattenAppend(if Truthy(es[0]) then [es[0]] else [], Keep(es[1..]));
      assert es == [es[0]] + es[1..];
    }
  }

  /** Filtering twice changes nothing. */
  lemma {:induction false} KeepIdempotent(es: seq<Entry>)
    ensures Keep(Keep(es)) == Keep(es)
    decreases |es|
  {
    if es != [] {
      KeepIdempotent(es[1..]);
      KeepAppend(if Truthy(es[0]) then [es[0]] else [], Keep(es[1..]));
    }
  }

  lemma {:induction false} KeepAppend(a: seq<Entry>, b: seq<Entry>)
    ensures Keep(a + b) == Keep(a) + Keep(b)
    decreases |a|
  {
    if a != [] {
      KeepAppend(a[1..], b);
      assert (a + b)[1..] == a[1..] + b;
    } else {
      assert a + b == b;
    }
  }

  lemma {:induction false} FlattenAppend(a: seq<Entry>, b: seq<Entry>)
    ensures Flatten(a + b) == Flatten(a) + Flatten(b)
    decreases |a|
  {
    if a != [] {
      FlattenAppend(a[1..], b);
      assert (a + b)[1..] == a[1..] + b;
    } else {
      assert a + b == b;
    }
  }

  /** Extending with the code tokens one at a time adds exactly those
      tokens, in order, each as a tuple. */
  lemma {:induction false} ItemsFlatten(ts: seq<Token>)
    ensures Flatten(Items(ts)) == ts
    ensures Flat(Items(ts))
    decreases |ts|
  {
    if ts != [] {
      ItemsFlatten(ts[1..]);
      assert Items(ts) == [Item(ts[0])] + Items(ts[1..]);
      FlattenAppend([Item(ts[0])], Items(ts[1..]));
      assert Flatten([Item(ts[0])]) == [ts[0]] by {
        assert [Item(ts[0])][1..] == [];
      }
      assert ts == [ts[0]] + ts[1..];
    }
  }

  /** Of the pair `tokenize_line` returns, the filter keeps the list of code
      tokens unless it is empty and the comment token unless it is `None`;
      the tuples read off the pair are the code tokens, then the comment. */
  lemma PairKept(lex: LineTokenizer, code: string)
    ensures Keep(Pair(lex, code)) ==
      (if lex(code).0 == [] then [] else [List(lex(code).0)])
      + (if lex(code).1.Some? then [Item(lex(code).1.value)] else [])
    ensures Flatten(Pair(lex, code)) ==
      lex(code).0 + (if lex(code).1.Some? then [lex(code).1.value] else [])
  {
    var es := Pair(lex, code);
    assert es[1..][1..] == [];
    assert Keep(es[1..][1..]) == [] && Flatten(es[1..][1..]) == [];
  }

  /** Meeting a line outside a comment only appends to the list. */
  lemma FreshAppends(lex: LineTokenizer, st: Scan, line: string)
    ensures |st.entries| <= |Fresh(lex, st, line).entries|
    ensures Fresh(lex, st, line).entries[..|st.entries|] == st.entries
  {
    var s := Find(line, "/*", 0);
    var n := |st.entries|;
    if s == -1 {
      var more := Items(lex(line).0);
      assert (st.entries + more)[..n] == st.entries;
    } else {
      var e := Find(line, "*/", s);
      if e == -1 {
        var more := Pair(lex, line[..s]);
        assert (st.entries + more)[..n] == st.entries;
      } else {
        var more := Pair(lex, line[..s]) + [CommentEntry(Slice(line, s + 2, e))] + Pair(lex, line[e + 2..]);
        assert st.entries + Pair(lex, line[..s]) + [CommentEntry(Slice(line, s + 2, e))] + Pair(lex, line[e + 2..])
            == st.entries + more;
        assert (st.entries + more)[..n] == st.entries;
      }
    }
  }

  /** The loop only ever appends to the list. */
  lemma StepAppends(lex: LineTokenizer, st: Scan, line: string)
    ensures |st.entries| <= |Step(lex, st, line).entries|
    ensures Step(lex, st, line).entries[..|st.entries|] == st.entries
  {
    if !st.open {
      FreshAppends(lex, st, line);
    } else if !NoCloser(line) {
      var e := Find(line, "*/", 0);
      var closed := Scan(st.entries + [CommentEntry(st.buffer + line[..e])], "", false);
      FreshAppends(lex, closed, line[e + 2..]);
      assert closed.entries[..|st.entries|] == st.entries;
    }
  }

  // Meeting `*/` inside a comment closes it with one comment token and
  // meets the rest of the line afresh.
  lemma CloseComment(lex: LineTokenizer, st: Scan, line: string)
    requires st.open && !NoCloser(line)
    ensures var e := Find(line, "*/", 0);
      Step(lex, st, line)
      == Fresh(lex, Scan(st.entries + [CommentEntry(st.buffer + line[..e])], "", false), line[e + 2..])
  {
  }

  /** Running over two stretches of lines is running over one, then the
      other. */
  lemma {:induction false} RunFromAppend(lex: LineTokenizer, st: Scan, a: seq<string>, b: seq<string>)
    ensures RunFrom(lex, st, a + b) == RunFrom(lex, RunFrom(lex, st, a), b)
    decreases |a|
  {
    if a == [] {
      assert a + b == b;
    } else {
      assert (a + b)[0] == a[0] && (a + b)[1..] == a[1..] + b;
      RunFromAppend(lex, Step(lex, st, a[0]), a[1..], b);
    }
  }

  /** The last turn of the loop. */
  lemma RunLast(lex: LineTokenizer, lines: seq<string>, line: string)
    ensures Run(lex, lines + [line]) == Step(lex, Run(lex, lines), line)
  {
    RunFromAppend(lex, Start, lines, [line]);
    assert RunFrom(lex, Run(lex, lines), [line]) == RunFrom(lex, Step(lex, Run(lex, lines), line), []);
  }

  /** Outside an open comment the comment text is empty: it is reset
      whenever a comment closes. */
  lemma {:induction false} ClosedMeansEmptyFrom(lex: LineTokenizer, st: Scan, lines: seq<string>)
    requires !st.open ==> st.buffer == ""
    ensures !RunFrom(lex, st, lines).open ==> RunFrom(lex, st, lines).buffer == ""
    decreases |lines|
  {
    if lines != [] {
      ClosedMeansEmptyFrom(lex, Step(lex, st, lines[0]), lines[1..]);
    }
  }

  /** The lines of an open comment, each with its line break. */
  function Joined(lines: seq<string>): string
    decreases |lines|
  {
    if lines == [] then "" else lines[0] + "\n" + Joined(lines[1..])
  }

  // `*/` does not occur in the line.
  predicate NoCloser(line: string) {
    Find(line, "*/", 0) == -1
  }

  /** A line inside an open comment only adds itself to the comment. */
  lemma StayOpen(lex: LineTokenizer, st: Scan, line: string)
    requires st.open && NoCloser(line)
    ensures Step(lex, st, line) == Scan(st.entries, st.buffer + line + "\n", true)
  {
  }

  /** Lines inside an open comment add nothing to the list, only their text
      and a line break to the comment. */
  lemma {:induction false} InsideComment(lex: LineTokenizer, st: Scan, inside: seq<string>)
    requires st.open
    requires forall k :: 0 <= k < |inside| ==> NoCloser(inside[k])
    ensures RunFrom(lex, st, inside) == Scan(st.entries, st.buffer + Joined(inside), true)
    decreases |inside|
  {
    if inside != [] {
      StayOpen(lex, st, inside[0]);
      var next := Step(lex, st, inside[0]);
      InsideComment(lex, next, inside[1..]);
      assert next.buffer + Joined(inside[1..]) == st.buffer + Joined(inside);
    }
  }

  // A line with `/*` and no `*/` after it, met outside a comment, gives the
  // prefix's pair and opens a comment holding the rest of the line.
  predicate Opener(line: string) {
    var s := Find(line, "/*", 0);
    s != -1 && Find(line, "*/", s) == -1
  }

  /** Meeting an opening line outside a comment. */
  lemma OpenComment(lex: LineTokenizer, st: Scan, opener: string)
    requires !st.open && Opener(opener)
    ensures var s := Find(opener, "/*", 0);
      Step(lex, st, opener) == Scan(st.entries + Pair(lex, opener[..s]), opener[s + 2..] + "\n", true)
  {
  }

  // A comment opened on one line and closed on a later one yields exactly
  // one `MULTI_LINE_COMMENT`: the text after `/*`, every line in between
  // and the text before `*/`, each line ended by its line break. What
  // follows the `*/` is then met as a fresh line.
  lemma CommentSpan(lex: LineTokenizer, st: Scan, opener: string, inside: seq<string>, closer: string)
    requires !st.open && Opener(opener)
    requires forall k :: 0 <= k < |inside| ==> NoCloser(inside[k])
    requires !NoCloser(closer)
    ensures var s, e := Find(opener, "/*", 0), Find(closer, "*/", 0);
      RunFrom(lex, st, [opener] + inside + [closer])
      == Fresh(lex, Scan(st.entries + Pair(lex, opener[..s])
                           + [CommentEntry(opener[s + 2..] + "\n" + Joined(inside) + closer[..e])], "", false),
               closer[e + 2..])
  {
    var s, e := Find(opener, "/*", 0), Find(closer, "*/", 0);
    OpenComment(lex, st, opener);
    var afterOpener := Step(lex, st, opener);
    RunFromAppend(lex, st, [opener], inside);
    assert RunFrom(lex, st, [opener]) == RunFrom(lex, afterOpener, []);
    InsideComment(lex, afterOpener, inside);
    var beforeCloser := RunFrom(lex, afterOpener, inside);
    RunFromAppend(lex, st, [opener] + inside, [closer]);
    assert RunFrom(lex, beforeCloser, [closer]) == RunFrom(lex, Step(lex, beforeCloser, closer), []);
    CloseComment(lex, beforeCloser, closer);
  }

  /** A comment still open at the end of the input emits nothing: the list
      ends with the opening line's prefix. */
  lemma CommentLeftOpen(lex: LineTokenizer, st: Scan, opener: string, inside: seq<string>)
    requires !st.open && Opener(opener)
    requires forall k :: 0 <= k < |inside| ==> NoCloser(inside[k])
    ensures var s := Find(opener, "/*", 0);
      && RunFrom(lex, st, [opener] + inside).entries == st.entries + Pair(lex, opener[..s])
      && RunFrom(lex, st, [opener] + inside).open
  {
    OpenComment(lex, st, opener);
    var afterOpener := Step(lex, st, opener);
    RunFromAppend(lex, st, [opener], inside);
    assert RunFrom(lex, st, [opener]) == RunFrom(lex, afterOpener, []);
    InsideComment(lex, afterOpener, inside);
  }

  // A line with `/*` and a later `*/`, met outside a comment, gives the
  // prefix's pair, one comment with the text between, and the suffix's
  // pair; the suffix is not searched for `/*` again, so no comment opens.
  lemma SameLineComment(lex: LineTokenizer, st: Scan, line: string)
    requires !st.open
    requires Find(line, "/*", 0) != -1 && !Opener(line)
    ensures var s := Find(line, "/*", 0);
      var e := Find(line, "*/", s);
      && Step(lex, st, line).entries
         == st.entries + Pair(lex, line[..s]) + [CommentEntry(Slice(line, s + 2, e))] + Pair(lex, line[e + 2..])
      && !Step(lex, st, line).open
      && s + 1 <= e
  {
  }

  // A line without `/*`, met outside a comment, adds only its code tokens:
  // its `#` comment is dropped, and no tuple of it is a comment.
  lemma PlainLine(st: Scan, line: string)
    requires !st.open && Find(line, "/*", 0) == -1
    ensures var after := Step(TokenizeLineFn, st, line);
      && after == Scan(st.entries + Items(CodeTokens(line)), st.buffer, false)
      && forall k :: |st.entries| <= k < |after.entries| ==>
           && after.entries[k].Item?
           && after.entries[k].token.kind != SingleLineComment
           && after.entries[k].token.kind != MultiLineComment
  {
    CodeKindsNever(line);
    var code := CodeTokens(line);
    var after := Step(TokenizeLineFn, st, line);
    assert after.entries == st.entries + Items(code);
    forall k | |st.entries| <= k < |after.entries|
      ensures && after.entries[k].Item?
              && after.entries[k].token.kind != SingleLineComment
              && after.entries[k].token.kind != MultiLineComment
    {
      assert after.entries[k] == Item(code[k - |st.entries|]);
      assert code[k - |st.entries|] in code;
    }
  }

  // `/*/`: the `*/` search starts at the `/*` itself and finds the shared
  // star, so the line is a complete, empty comment.
  lemma SharedStar(lex: LineTokenizer)
    ensures Step(lex, Start, "/*/").entries
            == Pair(lex, "") + [CommentEntry("")] + Pair(lex, "")
    ensures !Step(lex, Start, "/*/").open
  {
    var line := "/*/";
    assert line[0..2] == "/*";
    assert Find(line, "/*", 0) == 0;
    assert line[1..3] == "*/";
    assert Find(line, "*/", 0) == 1;
    assert line[..0] == "" && line[3..] == "";
  }

  // The list `tokenize` evidently means to build: the plain-line branch
  // adds one tuple per code token (`line_tokens, _ = tokenize_line(line)`),
  // and the comment branches are meant to add the code tokens of the
  // pieces around a comment in the same way. `FreshFlat` is `Fresh` with
  // the pairs of kaChing.py:93, 95 and 97 read that way.

  function FreshFlat(lex: LineTokenizer, st: Scan, line: string): Scan {
    var s := Find(line, "/*", 0);
    if s == -1 then
      Scan(st.entries + Items(lex(line).0), st.buffer, st.open)
    else
      var e := Find(line, "*/", s);
      if e == -1 then
        Scan(st.entries + Items(lex(line[..s]).0), line[s + 2..] + "\n", true)
      else
        Scan(st.entries + Items(lex(line[..s]).0) + [CommentEntry(Slice(line, s + 2, e))]
               + Items(lex(line[e + 2..]).0), st.buffer, st.open)
  }

  function StepFlat(lex: LineTokenizer, st: Scan, line: string): Scan {
    if st.open then
      var e := Find(line, "*/", 0);
      if e == -1 then
        Scan(st.entries, st.buffer + line + "\n", true)
      else
        FreshFlat(lex, Scan(st.entries + [CommentEntry(st.buffer + line[..e])], "", false), line[e + 2..])
    else
      FreshFlat(lex, st, line)
  }

  function RunFlatFrom(lex: LineTokenizer, st: Scan, lines: seq<string>): Scan
    decreases |lines|
  {
    if lines == [] then st else RunFlatFrom(lex, StepFlat(lex, st, lines[0]), lines[1..])
  }

  /** The flat token list for the input. */
  function TokenizeFlat(input: string): seq<Entry> {
    Keep(RunFlatFrom(TokenizeLineFn, Start, Split(input, '\n')).entries)
  }

  /** Every element is a `(kind, lexeme)` tuple. */
  predicate Flat(es: seq<Entry>) {
    forall e :: e in es ==> e.Item?
  }

  /** The flat scan only ever appends tuples. */
  lemma {:induction false} RunFlatStaysFlat(lex: LineTokenizer, st: Scan, lines: seq<string>)
    requires Flat(st.entries)
    ensures Flat(RunFlatFrom(lex, st, lines).entries)
    decreases |lines|
  {
    if lines != [] {
      var next := StepFlat(lex, st, lines[0]);
      assert Flat(next.entries);
      RunFlatStaysFlat(lex, next, lines[1..]);
    }
  }

  /** The corrected `tokenize` returns a flat list of tuples. */
  lemma TokenizeFlatIsFlat(input: string)
    ensures Flat(TokenizeFlat(input))
  {
    var run := RunFlatFrom(TokenizeLineFn, Start, Split(input, '\n'));
    RunFlatStaysFlat(TokenizeLineFn, Start, Split(input, '\n'));
    KeepTruthy(run.entries);
  }

  /** On lines without a comment opener the correction changes nothing:
      the two scans agree. */
  lemma {:induction false} FlatAgreesWithoutComments(lex: LineTokenizer, st: Scan, lines: seq<string>)
    requires !st.open
    requires forall k :: 0 <= k < |lines| ==> Find(lines[k], "/*", 0) == -1
    ensures RunFlatFrom(lex, st, lines) == RunFrom(lex, st, lines)
    decreases |lines|
  {
    if lines != [] {
      assert Step(lex, st, lines[0]) == StepFlat(lex, st, lines[0]);
      FlatAgreesWithoutComments(lex, Step(lex, st, lines[0]), lines[1..]);
    }
  }

  /** The line `x` followed by an empty comment, for any line tokenizer:
      the code before and after the comment enters as a pair. */
  lemma EmptyCommentLine(lex: LineTokenizer)
    ensures RunFrom(lex, Start, ["x/**/"]).entries == Pair(lex, "x") + [CommentEntry("")] + Pair(lex, "")
    ensures RunFlatFrom(lex, Start, ["x/**/"]).entries ==
      Items(lex("x").0) + [CommentEntry("")] + Items(lex("").0)
  {
    var line := "x/**/";
    assert Find(line, "/*", 0) == 1 by {
      assert line[1..3] == "/*";
      assert line[0..2][0] == 'x';
    }
    assert Find(line, "*/", 1) == 3 by {
      assert line[3..5] == "*/";
      assert line[1..3][0] == '/' && line[2..4][1] == '*';
    }
    assert line[..1] == "x" && line[5..] == "" && Slice(line, 3, 3) == "";
    assert ["x/**/"][1..] == [];
  }

  /** `tokenize_line` on `x` and on the empty piece. */
  lemma PiecesOfEmptyCommentLine()
    ensures |CodeTokens("x")| == 1 && CommentToken("x") == None
    ensures CodeTokens("") == [] && CommentToken("") == None
  {
    assert MatchAt("x", 0) == LexemeMatch(1);
    StepLexeme("x", 0);
    assert "x"[0..1] == "x";
  }

  /** The line `x` followed by an empty comment, as written: the code
      before the comment enters the list as one nested list, not as
      tuples; corrected, it enters as its tuple. */
  lemma NestedListExample()
    ensures |CodeTokens("x")| == 1
    ensures List(CodeTokens("x")) in TokenizeResult("x/**/")
    ensures Item(CodeTokens("x")[0]) in TokenizeFlat("x/**/")
  {
    PiecesOfEmptyCommentLine();
    var c := CodeTokens("x");
    var run := RunFrom(TokenizeLineFn, Start, ["x/**/"]).entries;
    var runFlat := RunFlatFrom(TokenizeLineFn, Start, ["x/**/"]).entries;
    assert TokenizeResult("x/**/") == Keep(run) && TokenizeFlat("x/**/") == Keep(runFlat) by {
      assert Split("x/**/", '\n') == ["x/**/"] by {
        SplitJoin(["x/**/"], '\n');
      }
    }
    assert run[0] == List(c) && runFlat[0] == Item(c[0]) by {
      EmptyCommentLine(TokenizeLineFn);
    }
    KeepTruthy(run);
    KeepTruthy(runFlat);
  }

  /** kaChing.py:89-105: a line met outside a comment, with `tokenize_line`
      run on its pieces. */
  method MeetLine(entries: seq<Entry>, buffer: string, open: bool, line: string)
    returns (entries': seq<Entry>, buffer': string, open': bool)
    ensures Scan(entries', buffer', open') == Fresh(TokenizeLineFn, Scan(entries, buffer, open), line)
  {
    entries', buffer', open' := entries, buffer, open;
    var s := Find(line, "/*", 0);
    if s != -1 {
      var e := Find(line, "*/", s);
      if e != -1 {
        var code, comment := TokenizeLine(line[..s]);
        entries' := entries' + [List(code), if comment.Some? then Item(comment.value) else Null];
        entries' := entries' + [CommentEntry(Slice(line, s + 2, e))];
        code, comment := TokenizeLine(line[e + 2..]);
        entries' := entries' + [List(code), if comment.Some? then Item(comment.value) else Null];
      } else {
        var code, comment := TokenizeLine(line[..s]);
        entries' := entries' + [List(code), if comment.Some? then Item(comment.value) else Null];
        buffer' := line[s + 2..] + "\n";
        open' := true;
      }
    } else {
      var code, _ := TokenizeLine(line);
      entries' := entries' + Items(code);
    }
  }

  /** `tokenize`, as the loop of kaChing.py:72-107 runs it. */
  method Tokenize(input: string) returns (tokens: seq<Entry>)
    ensures tokens == TokenizeResult(input)
  {
    var lines := Split(input, '\n');
    var entries: seq<Entry> := [];
    var buffer := "";
    var open := false;
    for i := 0 to |lines|
      invariant Scan(entries, buffer, open) == Run(TokenizeLineFn, lines[..i])
    {
      RunLast(TokenizeLineFn, lines[..i], lines[i]);
      assert lines[..i + 1] == lines[..i] + [lines[i]];
      var line := lines[i];
      if open {
        var e := Find(line, "*/", 0);
        if e != -1 {
          buffer := buffer + line[..e];
          entries := entries + [CommentEntry(buffer)];
          buffer := "";
          open := false;
          line := line[e + 2..];
        } else {
          buffer := buffer + line + "\n";
          continue;
        }
      }
      entries, buffer, open := MeetLine(entries, buffer, open, line);
    }
    assert lines[..|lines|] == lines;
    tokens := Keep(entries);
  }
}
