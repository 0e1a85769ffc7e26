/** The per-line syntax validator of kaChing (`syntax_analyzer`,
    kaChing.py:110-500): one pass over the tokens of a line, a fixed shape
    checker per kind of statement, seven declaration flags, and the message
    of the first checker that answers. */
module Validator {
  import opened Wrappers
  import opened Strings
  import opened Lexicon

  /** The seven declarable types, one per declaration flag. */
  datatype TypeWord = Int | Str | Char | Float | Double | Bool | Long

  /** Every message the validator can return; `Text` spells each one out.
      Three of them quote the lexeme that triggered the checker. */
  datatype Msg =
    | IdentifierExpected(word: string) | AssignmentExpected(word: string) | LiteralExpected(word: string)
    | ConditionalValid | ConditionalOperator | ConditionalOperand | ConditionalClose
    | ElseValid | ElseIncomplete
    | ForValid | ForOpen | ForFirst | ForSecond | ForClose
    | WhileValid | WhileOpen | WhileClose
    | BindingValid | BindingClose
    | ReservedValid(word: string) | ReservedOpen(word: string) | ReservedClose(word: string)
    | PrintValid | PrintOpen | PrintArgument | PrintClose
    | Declared(t: TypeWord) | InvalidSyntax

  /** What the validator gives back: a message, or the `IndexError` Python
      raises where the `if` checker indexes past the end of the line. */
  datatype Verdict = Message(msg: Msg) | Crash

  /** The type names of the flag messages. */
  function TypeName(t: TypeWord): string {
    match t
    case Int => "Integer"
    case Str => "String"
    case Char => "Char"
    case Float => "Float"
    case Double => "Double"
    case Bool => "Boolean"
    case Long => "Long"
  }

  /** The text of each message, as the source writes it. */
  function Text(m: Msg): string {
    match m
    case IdentifierExpected(v) => "Syntax Error: Expected an identifier after '" + v + "' declaration"
    case AssignmentExpected(v) => "Syntax Error: Expected an assignment operator '=' after '" + v + "' declaration"
    case LiteralExpected(v) => "Syntax Error: " + v + " declaration should have " + v + " literal value"
    case ConditionalValid => "Valid conditional Statement"
    case ConditionalOperator => "Syntax Error: Expected a relational operator after the conditional expression"
    case ConditionalOperand => "Syntax Error: Expected an expression after the relational operator"
    case ConditionalClose => "Syntax Error: Expected ')' after the conditional expression"
    case ElseValid => "Valid else syntax"
    case ElseIncomplete => "Syntax Error: Incomplete 'else' statement"
    case ForValid => "Valid 'for' loop statement"
    case ForOpen => "Syntax Error: Missing opening parenthesis '(' in 'for' loop"
    case ForFirst => "Syntax Error: Missing first semicolon ';' in 'for' loop"
    case ForSecond => "Syntax Error: Missing second semicolon ';' in 'for' loop"
    case ForClose => "Syntax Error: Missing closing parenthesis ')' in 'for' loop"
    case WhileValid => "Valid 'while' loop statement"
    case WhileOpen => "Syntax Error: Missing opening parenthesis '(' in 'while' loop"
    case WhileClose => "Syntax Error: Missing closing parenthesis ')' in 'while' loop"
    case BindingValid => "Valid data binding syntax"
    case BindingClose => "Syntax Error: Missing closing delimiter '%' for data binding"
    case ReservedValid(v) => "Valid invocation of reserved word '" + v + "'"
    case ReservedOpen(v) => "Syntax Error: Missing opening parenthesis '(' after reserved word '" + v + "'"
    case ReservedClose(v) => "Syntax Error: Missing closing parenthesis ')' after reserved word '" + v + "'"
    case PrintValid => "Valid 'print' statement"
    case PrintOpen => "Syntax Error: Missing opening parenthesis '(' for 'print' statement"
    case PrintArgument => "Syntax Error: Missing or invalid string literal argument for 'print' statement"
    case PrintClose => "Syntax Error: Missing closing parenthesis ')' after string literal"
    case Declared(t) => "Valid " + TypeName(t) + " declaration"
    case InvalidSyntax => "Invalid Syntax"
  }

  /** What one checker does with the token it looks at: answer for the whole
      line, raise one declaration flag, or let the scan go on. */
  datatype Outcome = Done(verdict: Verdict) | Declares(t: TypeWord) | Proceed

  /** The declaration keywords of kaChing.py:143. */
  function TypeOf(word: string): Option<TypeWord> {
    if word == "int" then Some(Int)
    else if word == "string" then Some(Str)
    else if word == "char" then Some(Char)
    else if word == "float" then Some(Float)
    else if word == "double" then Some(Double)
    else if word == "bool" then Some(Bool)
    else if word == "long" then Some(Long)
    else None
  }

  /** The keyword of each type, the inverse of `TypeOf`. */
  function Word(t: TypeWord): string {
    match t
    case Int => "int"
    case Str => "string"
    case Char => "char"
    case Float => "float"
    case Double => "double"
    case Bool => "bool"
    case Long => "long"
  }

  lemma TypeWords(t: TypeWord, word: string)
    ensures TypeOf(Word(t)) == Some(t)
    ensures TypeOf(word).Some? ==> Word(TypeOf(word).value) == word
  {
  }

  // ---------------------------------------------------------------------
  // The cursor
  // ---------------------------------------------------------------------

  /** `tokens.index(tok)` for the token at position `i`, searched from
      position `j` on: the first position holding a token equal to it. */
  function FirstIndex(ts: seq<Token>, i: nat, j: nat): (r: nat)
    requires j <= i < |ts|
    ensures j <= r <= i && ts[r] == ts[i]
    ensures forall m :: j <= m < r ==> ts[m] != ts[i]
    decreases i - j
  {
    if ts[j] == ts[i] then j else FirstIndex(ts, i, j + 1)
  }

  /** The `next_index` every checker starts from: one past the FIRST token
      equal to the current one, which is not the current position when the
      same token occurs earlier in the line. */
  function After(ts: seq<Token>, i: nat): (n: nat)
    requires i < |ts|
    ensures 1 <= n <= i + 1
  {
    FirstIndex(ts, i, 0) + 1
  }

  /** The cursor moves one past the current token exactly when the token has
      not occurred before; otherwise it lands right after its first
      occurrence. */
  lemma AfterCurrent(ts: seq<Token>, i: nat)
    requires i < |ts|
    ensures After(ts, i) == i + 1 <==> ts[i] !in ts[..i]
    ensures ts[After(ts, i) - 1] == ts[i]
    ensures forall m :: 0 <= m < After(ts, i) - 1 ==> ts[m] != ts[i]
  {
    var r := FirstIndex(ts, i, 0);
    if ts[i] in ts[..i] {
      var j :| 0 <= j < i && ts[..i][j] == ts[i];
      assert ts[j] == ts[i];
    }
    if r < i {
      assert ts[..i][r] == ts[i];
    }
  }

  /** The kinds of the first `n` tokens of a line, which the cursor loops
      look at. */
  function KindsUpTo(ts: seq<Token>, n: nat): (ks: seq<TokenKind>)
    requires n <= |ts|
    ensures |ks| == n
  {
    if n == 0 then [] else KindsUpTo(ts, n - 1) + [ts[n - 1].kind]
  }

  function Kinds(ts: seq<Token>): (ks: seq<TokenKind>)
    ensures |ks| == |ts|
  {
    KindsUpTo(ts, |ts|)
  }

  /** Each entry of `Kinds` is the kind of the token at that position. */
  lemma {:induction false} KindAt(ts: seq<Token>, n: nat, j: nat)
    requires j < n <= |ts|
    ensures KindsUpTo(ts, n)[j] == ts[j].kind
  {
    if j < n - 1 {
      KindAt(ts, n - 1, j);
    }
  }

  /** The cursor loops `while next_index < len(tokens) and
      tokens[next_index][0] != k`: the first position from `from` on that
      holds `k`, or the end of the line. The source then tests
      `next_index < len(tokens) and tokens[next_index][0] == k`; as the
      cursor only stops early on `k`, the bounds test decides it. */
  function Seek<K(==)>(ks: seq<K>, from: nat, k: K): (r: nat)
    requires from <= |ks|
    ensures from <= r <= |ks|
    ensures r < |ks| ==> ks[r] == k
    decreases |ks| - from
  {
    if from == |ks| || ks[from] == k then from else Seek(ks, from + 1, k)
  }

  /** The cursor passes no `k`: it stops at the first one. */
  lemma {:induction false} SeekFirst<K>(ks: seq<K>, from: nat, k: K, p: nat)
    requires from <= p < |ks| && ks[p] == k
    ensures Seek(ks, from, k) <= p
    decreases |ks| - from
  {
    if ks[from] != k {
      SeekFirst(ks, from + 1, k, p);
    }
  }

  /** `a` occurs from position `from` on. */
  predicate Later<K(==)>(ks: seq<K>, from: nat, a: K) {
    exists p :: from <= p < |ks| && ks[p] == a
  }

  /** `a` and, after it, `b` occur from position `from` on. */
  predicate Later2<K(==)>(ks: seq<K>, from: nat, a: K, b: K) {
    exists p, q :: from <= p < q < |ks| && ks[p] == a && ks[q] == b
  }

  /** `a`, `b` and `c` occur in this order from position `from` on. */
  predicate Later3<K(==)>(ks: seq<K>, from: nat, a: K, b: K, c: K) {
    exists p, q, r :: from <= p < q < r < |ks| && ks[p] == a && ks[q] == b && ks[r] == c
  }

  /** The cursor finds `a` exactly when there is one to find. */
  lemma SeekFinds<K>(ks: seq<K>, from: nat, a: K)
    requires from <= |ks|
    ensures Later(ks, from, a) <==> Seek(ks, from, a) < |ks|
  {
    var s := Seek(ks, from, a);
    if Later(ks, from, a) {
      var p :| from <= p < |ks| && ks[p] == a;
      SeekFirst(ks, from, a, p);
    }
    if s < |ks| {
      assert from <= s < |ks| && ks[s] == a;
    }
  }

  /** Stopping at the first `a` never loses a `b` that follows some `a`. */
  lemma SeekFinds2<K>(ks: seq<K>, from: nat, a: K, b: K)
    requires from <= |ks|
    ensures Later2(ks, from, a, b) <==> Seek(ks, from, a) < |ks| && Later(ks, Seek(ks, from, a) + 1, b)
  {
    var s := Seek(ks, from, a);
    if Later2(ks, from, a, b) {
      var p, q :| from <= p < q < |ks| && ks[p] == a && ks[q] == b;
      SeekFirst(ks, from, a, p);
      assert s + 1 <= q < |ks| && ks[q] == b;
    }
    if s < |ks| && Later(ks, s + 1, b) {
      var q :| s + 1 <= q < |ks| && ks[q] == b;
      assert from <= s < q < |ks| && ks[s] == a && ks[q] == b;
    }
  }

  /** Stopping at the first `a` never loses a `b` and then a `c` that
      follow some `a`. */
  lemma SeekFinds3<K>(ks: seq<K>, from: nat, a: K, b: K, c: K)
    requires from <= |ks|
    ensures Later3(ks, from, a, b, c) <==> Seek(ks, from, a) < |ks| && Later2(ks, Seek(ks, from, a) + 1, b, c)
  {
    var s := Seek(ks, from, a);
    if Later3(ks, from, a, b, c) {
      var p, q, r :| from <= p < q < r < |ks| && ks[p] == a && ks[q] == b && ks[r] == c;
      SeekFirst(ks, from, a, p);
      assert s + 1 <= q < r < |ks| && ks[q] == b && ks[r] == c;
    }
    if s < |ks| && Later2(ks, s + 1, b, c) {
      var q, r :| s + 1 <= q < r < |ks| && ks[q] == b && ks[r] == c;
      assert from <= s < q < r < |ks| && ks[s] == a && ks[q] == b && ks[r] == c;
    }
  }

  /** The cursor loop itself. */
  method SkipTo(ts: seq<Token>, from: nat, k: TokenKind) returns (r: nat)
    requires from <= |ts|
    ensures r == Seek(Kinds(ts), from, k)
  {
    r := from;
    while r < |ts| && ts[r].kind != k
      invariant from <= r <= |ts|
      invariant Seek(Kinds(ts), r, k) == Seek(Kinds(ts), from, k)
      decreases |ts| - r
    {
      KindAt(ts, |ts|, r);
      r := r + 1;
    }
    if r < |ts| {
      KindAt(ts, |ts|, r);
    }
  }

  // ---------------------------------------------------------------------
  // The checkers, one per kind of statement
  // ---------------------------------------------------------------------

  /** Whether the value after `=` suits the declared type. The source asks
      for kinds named `CHAR_LITERAL`, `true` and `false`, which no token
      ever has. */
  predicate LiteralFits(t: TypeWord, k: TokenKind) {
    match t
    case Int => k == IntLiteral
    case Str => k == StringLiteral
    case Char => Name(k) == "CHAR_LITERAL"
    case Float => k == IntLiteral
    case Double => k == IntLiteral
    case Bool => Name(k) == "true" || Name(k) == "false"
    case Long => k == IntLiteral
  }

  /** The typed declaration checker (kaChing.py:143-202), for the keyword
      `v` of type `t` at position `i`. */
  function Declaration(ts: seq<Token>, i: nat, t: TypeWord): Outcome
    requires i < |ts|
  {
    var n := After(ts, i);
    var v := ts[i].lexeme;
    if n < |ts| && ts[n].kind == Identifier then
      if n + 1 < |ts| then
        if ts[n + 1].lexeme == "=" then
          if n + 2 < |ts| && LiteralFits(t, ts[n + 2].kind) then Declares(t)
          else Done(Message(LiteralExpected(v)))
        else if ts[n + 1].lexeme == ";" then Declares(t)
        else Done(Message(AssignmentExpected(v)))
      else Declares(t)
    else Done(Message(IdentifierExpected(v)))
  }

  predicate IsOperand(k: TokenKind) {
    k == IntLiteral || k == Identifier
  }

  /** The `if`/`elif` checker (kaChing.py:363-382). Three of its reads have
      no bounds check and raise `IndexError` past the end of the line. */
  function Conditional(ts: seq<Token>, i: nat): Outcome
    requires i < |ts|
  {
    var n := After(ts, i);
    if n < |ts| && ts[n].kind == LParen then
      if n + 1 >= |ts| then Done(Crash)
      else if IsOperand(ts[n + 1].kind) then
        if n + 2 < |ts| && ts[n + 2].kind == OperatorRelation then
          if n + 3 >= |ts| then Done(Crash)
          else if IsOperand(ts[n + 3].kind) then
            if n + 4 >= |ts| then Done(Crash)
            else if ts[n + 4].kind == RParen then Done(Message(ConditionalValid))
            else Done(Message(ConditionalClose))
          else Done(Message(ConditionalOperand))
        else Done(Message(ConditionalOperator))
      else Proceed
    else Proceed
  }

  /** The `else` checker (kaChing.py:385-395). Its first test compares a
      kind with `{`, which is no kind's name; the two branches that only
      print let the scan go on. */
  function Else(ts: seq<Token>, i: nat): Outcome
    requires i < |ts|
  {
    var n := After(ts, i);
    if n < |ts| then
      if Name(ts[n].kind) == "{" then Proceed
      else if ts[n].kind == Keywords && ts[n].lexeme == "if" then Proceed
      else Done(Message(ElseValid))
    else Done(Message(ElseIncomplete))
  }

  /** The `for` checker (kaChing.py:398-424), on the three cursor positions
      its loops stop at. */
  function ForLoop(ts: seq<Token>, i: nat): Outcome
    requires i < |ts|
  {
    var n := After(ts, i);
    if n < |ts| && ts[n].kind == LParen then Done(Message(ForClauses(Kinds(ts), n + 1)))
    else Done(Message(ForOpen))
  }

  /** The three cursor loops of the `for` checker once its `(` is found:
      to a `;`, past it to a second `;`, past that to a `)`. */
  function ForClauses(ks: seq<TokenKind>, from: nat): Msg
    requires from <= |ks|
  {
    var p := Seek(ks, from, Semicolon);
    if p < |ks| then
      var q := Seek(ks, p + 1, Semicolon);
      if q < |ks| then
        if Seek(ks, q + 1, RParen) < |ks| then ForValid else ForClose
      else ForSecond
    else ForFirst
  }

  /** The `while` checker (kaChing.py:427-439). */
  function WhileLoop(ts: seq<Token>, i: nat): Outcome
    requires i < |ts|
  {
    var n := After(ts, i);
    if n < |ts| && ts[n].kind == LParen then
      var r := Seek(Kinds(ts), n + 1, RParen);
      if r < |ts| then Done(Message(WhileValid))
      else Done(Message(WhileClose))
    else Done(Message(WhileOpen))
  }

  /** The data binding checker (kaChing.py:442-450). */
  function DataBinding(ts: seq<Token>, i: nat): Outcome
    requires i < |ts|
  {
    var r := Seek(Kinds(ts), After(ts, i), DataBindingEnd);
    if r < |ts| then Done(Message(BindingValid))
    else Done(Message(BindingClose))
  }

  /** The reserved word call checker (kaChing.py:453-465). */
  function ReservedCall(ts: seq<Token>, i: nat): Outcome
    requires i < |ts|
  {
    var n := After(ts, i);
    var v := ts[i].lexeme;
    if n < |ts| && ts[n].kind == LParen then
      var r := Seek(Kinds(ts), n + 1, RParen);
      if r < |ts| then Done(Message(ReservedValid(v)))
      else Done(Message(ReservedClose(v)))
    else Done(Message(ReservedOpen(v)))
  }

  predicate IsPrintable(k: TokenKind) {
    k == StringLiteral || k == IntLiteral || k == Identifier
  }

  /** The `print` checker (kaChing.py:468-482). */
  function PrintCall(ts: seq<Token>, i: nat): Outcome
    requires i < |ts|
  {
    var n := After(ts, i);
    if n < |ts| && ts[n].kind == LParen then
      if n + 1 < |ts| && IsPrintable(ts[n + 1].kind) then
        if n + 2 < |ts| && ts[n + 2].kind == RParen then Done(Message(PrintValid))
        else Done(Message(PrintClose))
      else Done(Message(PrintArgument))
    else Done(Message(PrintOpen))
  }

  predicate IsKeyword(t: Token, word: string) {
    t.kind == Keywords && t.lexeme == word
  }

  /** The checker the token at `i` triggers. The source tries them one after
      the other; their triggering tokens are pairwise different, so at most
      one applies, and a declaration that raises its flag falls through the
      others. */
  function Check(ts: seq<Token>, i: nat): Outcome
    requires i < |ts|
  {
    var t := ts[i];
    if t.kind == Keywords && TypeOf(t.lexeme).Some? then Declaration(ts, i, TypeOf(t.lexeme).value)
    else if IsKeyword(t, "if") || IsKeyword(t, "elif") then Conditional(ts, i)
    else if IsKeyword(t, "else") then Else(ts, i)
    else if IsKeyword(t, "for") then ForLoop(ts, i)
    else if IsKeyword(t, "while") then WhileLoop(ts, i)
    else if t.kind == DataBindingStart then DataBinding(ts, i)
    else if t.kind == ReservedWords then ReservedCall(ts, i)
    else if IsKeyword(t, "print") then PrintCall(ts, i)
    else Proceed
  }

  // ---------------------------------------------------------------------
  // The scan
  // ---------------------------------------------------------------------

  /** The message of the flags, tried in the order of kaChing.py:485-500. */
  function Summary(declared: set<TypeWord>): Msg {
    if Int in declared then Declared(Int)
    else if Str in declared then Declared(Str)
    else if Char in declared then Declared(Char)
    else if Float in declared then Declared(Float)
    else if Double in declared then Declared(Double)
    else if Bool in declared then Declared(Bool)
    else if Long in declared then Declared(Long)
    else InvalidSyntax
  }

  predicate OpensComment(t: Token) {
    t.kind == MultiLineComment && StartsWith(t.lexeme, "/*")
  }

  predicate ClosesComment(t: Token) {
    t.kind == MultiLineComment && EndsWith(t.lexeme, "*/")
  }

  /** The loop of kaChing.py:124-482 from position `i` on, with the comment
      flag and the set of raised declaration flags it has reached. */
  function AnalyzeFrom(ts: seq<Token>, i: nat, inComment: bool, declared: set<TypeWord>): Verdict
    requires i <= |ts|
    decreases |ts| - i
  {
    if i == |ts| then Message(Summary(declared))
    else if inComment then AnalyzeFrom(ts, i + 1, !ClosesComment(ts[i]), declared)
    else if OpensComment(ts[i]) then AnalyzeFrom(ts, i + 1, true, declared)
    else
      match Check(ts, i)
      case Done(v) => v
      case Declares(t) => AnalyzeFrom(ts, i + 1, false, declared + {t})
      case Proceed => AnalyzeFrom(ts, i + 1, false, declared)
  }

  /** What `syntax_analyzer(tokens)` returns. */
  function Analyze(ts: seq<Token>): Verdict {
    AnalyzeFrom(ts, 0, false, {})
  }

  // ---------------------------------------------------------------------
  // The validator as the source runs it: a loop over the tokens with the
  // flags, and a cursor loop inside four of the checkers
  // ---------------------------------------------------------------------

  method ForLoopAt(ts: seq<Token>, i: nat) returns (o: Outcome)
    requires i < |ts|
    ensures o == ForLoop(ts, i)
  {
    var n := After(ts, i);
    if n < |ts| && ts[n].kind == LParen {
      var p := SkipTo(ts, n + 1, Semicolon);
      if p < |ts| {
        var q := SkipTo(ts, p + 1, Semicolon);
        if q < |ts| {
          var r := SkipTo(ts, q + 1, RParen);
          if r < |ts| {
            o := Done(Message(ForValid));
          } else {
            o := Done(Message(ForClose));
          }
        } else {
          o := Done(Message(ForSecond));
        }
      } else {
        o := Done(Message(ForFirst));
      }
    } else {
      o := Done(Message(ForOpen));
    }
  }

  method WhileLoopAt(ts: seq<Token>, i: nat) returns (o: Outcome)
    requires i < |ts|
    ensures o == WhileLoop(ts, i)
  {
    var n := After(ts, i);
    if !(n < |ts| && ts[n].kind == LParen) {
      return Done(Message(WhileOpen));
    }
    var r := SkipTo(ts, n + 1, RParen);
    if r < |ts| {
      o := Done(Message(WhileValid));
    } else {
      o := Done(Message(WhileClose));
    }
  }

  method DataBindingAt(ts: seq<Token>, i: nat) returns (o: Outcome)
    requires i < |ts|
    ensures o == DataBinding(ts, i)
  {
    var r := SkipTo(ts, After(ts, i), DataBindingEnd);
    if r < |ts| {
      o := Done(Message(BindingValid));
    } else {
      o := Done(Message(BindingClose));
    }
  }

  method ReservedCallAt(ts: seq<Token>, i: nat) returns (o: Outcome)
    requires i < |ts|
    ensures o == ReservedCall(ts, i)
  {
    var n := After(ts, i);
    var v := ts[i].lexeme;
    if !(n < |ts| && ts[n].kind == LParen) {
      return Done(Message(ReservedOpen(v)));
    }
    var r := SkipTo(ts, n + 1, RParen);
    if r < |ts| {
      o := Done(Message(ReservedValid(v)));
    } else {
      o := Done(Message(ReservedClose(v)));
    }
  }

  /** The body of the loop for one token outside a comment. */
  method CheckToken(ts: seq<Token>, i: nat) returns (o: Outcome)
    requires i < |ts|
    ensures o == Check(ts, i)
  {
    var t := ts[i];
    if t.kind == Keywords && TypeOf(t.lexeme).Some? {
      o := Declaration(ts, i, TypeOf(t.lexeme).value);
    } else if IsKeyword(t, "if") || IsKeyword(t, "elif") {
      o := Conditional(ts, i);
    } else if IsKeyword(t, "else") {
      o := Else(ts, i);
    } else if IsKeyword(t, "for") {
      o := ForLoopAt(ts, i);
    } else if IsKeyword(t, "while") {
      o := WhileLoopAt(ts, i);
    } else if t.kind == DataBindingStart {
      o := DataBindingAt(ts, i);
    } else if t.kind == ReservedWords {
      o := ReservedCallAt(ts, i);
    } else if IsKeyword(t, "print") {
      o := PrintCall(ts, i);
    } else {
      o := Proceed;
    }
  }

  /** `syntax_analyzer(tokens)`: the flags are the set of types declared so
      far. */
  method SyntaxAnalyzer(ts: seq<Token>) returns (v: Verdict)
    ensures v == Analyze(ts)
  {
    var inComment := false;
    var declared: set<TypeWord> := {};
    for i := 0 to |ts|
      invariant AnalyzeFrom(ts, i, inComment, declared) == Analyze(ts)
    {
      if inComment {
        inComment := !ClosesComment(ts[i]);
        continue;
      }
      if OpensComment(ts[i]) {
        inComment := true;
        continue;
      }
      var o := CheckToken(ts, i);
      match o
      case Done(r) =>
        return r;
      case Declares(t) =>
        declared := declared + {t};
      case Proceed =>
    }
    v := Message(Summary(declared));
  }

  // ---------------------------------------------------------------------
  // What the checkers accept and in which order they complain
  // ---------------------------------------------------------------------

  /** Each token triggers the checker of its statement, and every other
      token none. */
  lemma Dispatch(ts: seq<Token>, i: nat)
    requires i < |ts|
    ensures var t := ts[i];
      && (forall ty :: IsDeclaration(t, ty) ==> Check(ts, i) == Declaration(ts, i, ty))
      && (IsKeyword(t, "if") || IsKeyword(t, "elif") ==> Check(ts, i) == Conditional(ts, i))
      && (IsKeyword(t, "else") ==> Check(ts, i) == Else(ts, i))
      && (IsKeyword(t, "for") ==> Check(ts, i) == ForLoop(ts, i))
      && (IsKeyword(t, "while") ==> Check(ts, i) == WhileLoop(ts, i))
      && (IsKeyword(t, "print") ==> Check(ts, i) == PrintCall(ts, i))
      && (t.kind == DataBindingStart ==> Check(ts, i) == DataBinding(ts, i))
      && (t.kind == ReservedWords ==> Check(ts, i) == ReservedCall(ts, i))
      && (t.kind !in {Keywords, DataBindingStart, ReservedWords} ==> Check(ts, i) == Proceed)
      && ((&& t.kind == Keywords && TypeOf(t.lexeme).None?
           && t.lexeme !in {"if", "elif", "else", "for", "while", "print"}) ==> Check(ts, i) == Proceed)
  {
    forall ty | IsDeclaration(ts[i], ty)
      ensures Check(ts, i) == Declaration(ts, i, ty)
    {
      TypeWords(ty, ts[i].lexeme);
    }
  }

  /** No kind is named `{`, `CHAR_LITERAL`, `true` or `false`, the names
      three of the source's tests compare a kind with. */
  lemma KindNames(k: TokenKind)
    ensures Name(k) != "{" && Name(k) != "CHAR_LITERAL" && Name(k) != "true" && Name(k) != "false"
  {
  }

  /** Only an integer literal suits `int`, `float`, `double` and `long`, only
      a string literal suits `string`, and nothing suits `char` or `bool`. */
  lemma LiteralKinds(t: TypeWord, k: TokenKind)
    ensures LiteralFits(t, k) <==>
      || (k == IntLiteral && (t == Int || t == Float || t == Double || t == Long))
      || (k == StringLiteral && t == Str)
  {
    KindNames(k);
  }

  predicate IsDeclaration(t: Token, ty: TypeWord) {
    t.kind == Keywords && t.lexeme == Word(ty)
  }

  /** A typed keyword raises its flag, without answering for the line,
      exactly when an identifier follows it and then the end of the line, a
      `;`, or a `=` and a literal of its type; otherwise it answers with a
      syntax error. */
  lemma DeclarationRaisesFlag(ts: seq<Token>, i: nat, t: TypeWord)
    requires i < |ts| && IsDeclaration(ts[i], t)
    ensures var n := After(ts, i);
      Declaration(ts, i, t) == Declares(t) <==>
        && n < |ts| && ts[n].kind == Identifier
        && (|| n + 1 == |ts|
            || ts[n + 1].lexeme == ";"
            || (ts[n + 1].lexeme == "=" && n + 2 < |ts| && LiteralFits(t, ts[n + 2].kind)))
    ensures !Declaration(ts, i, t).Declares? ==> Declaration(ts, i, t).Done? && Declaration(ts, i, t).verdict.Message?
  {
    TypeWords(t, ts[i].lexeme);
    AfterCurrent(ts, i);
  }

  /** The three errors of the declaration checker, each with the keyword it
      quotes. */
  lemma DeclarationErrors(ts: seq<Token>, i: nat, t: TypeWord)
    requires i < |ts| && IsDeclaration(ts[i], t)
    ensures var n := After(ts, i);
      && (!(n < |ts| && ts[n].kind == Identifier) ==>
            Declaration(ts, i, t) == Done(Message(IdentifierExpected(Word(t)))))
      && (n + 1 < |ts| && ts[n].kind == Identifier && ts[n + 1].lexeme != "=" && ts[n + 1].lexeme != ";" ==>
            Declaration(ts, i, t) == Done(Message(AssignmentExpected(Word(t)))))
      && (n + 1 < |ts| && ts[n].kind == Identifier && ts[n + 1].lexeme == "=" &&
          !(n + 2 < |ts| && LiteralFits(t, ts[n + 2].kind)) ==>
            Declaration(ts, i, t) == Done(Message(LiteralExpected(Word(t)))))
  {
    TypeWords(t, ts[i].lexeme);
  }

  /** A `char` or `bool` declaration with a value never passes. */
  lemma CharAndBoolNeverAssigned(ts: seq<Token>, i: nat, t: TypeWord)
    requires i < |ts| && IsDeclaration(ts[i], t) && (t == Char || t == Bool)
    requires After(ts, i) + 1 < |ts| && ts[After(ts, i)].kind == Identifier
    requires ts[After(ts, i) + 1].lexeme == "="
    ensures Declaration(ts, i, t) == Done(Message(LiteralExpected(Word(t))))
  {
    TypeWords(t, ts[i].lexeme);
    var n := After(ts, i);
    if n + 2 < |ts| {
      LiteralKinds(t, ts[n + 2].kind);
    }
  }

  /** The `if`/`elif` checker accepts exactly `( operand relop operand )`,
      lets the scan go on when `(` or the first operand is missing, and
      crashes exactly where the source reads past the end of the line. */
  lemma ConditionalOutcomes(ts: seq<Token>, i: nat)
    requires i < |ts|
    ensures var n := After(ts, i);
      && (Conditional(ts, i) == Done(Message(ConditionalValid)) <==>
            && n + 4 < |ts| && ts[n].kind == LParen && IsOperand(ts[n + 1].kind)
            && ts[n + 2].kind == OperatorRelation && IsOperand(ts[n + 3].kind) && ts[n + 4].kind == RParen)
      && (Conditional(ts, i) == Proceed <==>
            !(n < |ts| && ts[n].kind == LParen) || (n + 1 < |ts| && !IsOperand(ts[n + 1].kind)))
      && (Conditional(ts, i) == Done(Crash) <==>
            && n < |ts| && ts[n].kind == LParen
            && (|| n + 1 == |ts|
                || (&& IsOperand(ts[n + 1].kind) && n + 2 < |ts| && ts[n + 2].kind == OperatorRelation
                    && (n + 3 == |ts| || (IsOperand(ts[n + 3].kind) && n + 4 == |ts|)))))
  {
    AfterCurrent(ts, i);
  }

  /** The errors of the `if`/`elif` checker, in the order it reports them. */
  lemma ConditionalErrors(ts: seq<Token>, i: nat)
    requires i < |ts|
    ensures var n := After(ts, i);
      && (n + 1 < |ts| && ts[n].kind == LParen && IsOperand(ts[n + 1].kind) &&
          !(n + 2 < |ts| && ts[n + 2].kind == OperatorRelation) ==>
            Conditional(ts, i) == Done(Message(ConditionalOperator)))
      && (n + 3 < |ts| && ts[n].kind == LParen && IsOperand(ts[n + 1].kind) &&
          ts[n + 2].kind == OperatorRelation && !IsOperand(ts[n + 3].kind) ==>
            Conditional(ts, i) == Done(Message(ConditionalOperand)))
      && (n + 4 < |ts| && ts[n].kind == LParen && IsOperand(ts[n + 1].kind) &&
          ts[n + 2].kind == OperatorRelation && IsOperand(ts[n + 3].kind) && ts[n + 4].kind != RParen ==>
            Conditional(ts, i) == Done(Message(ConditionalClose)))
  {
  }

  /** `if (` at the end of a line makes the validator raise `IndexError`. */
  lemma OpenConditionCrashes()
    ensures Analyze([Token(Keywords, "if"), Token(LParen, "(")]) == Crash
  {
    var ts := [Token(Keywords, "if"), Token(LParen, "(")];
    assert After(ts, 0) == 1;
    assert Check(ts, 0) == Done(Crash);
  }

  /** `else` answers for the line unless `if` follows it: incomplete at the
      end of the line, valid before anything else, `{` included. */
  lemma ElseOutcomes(ts: seq<Token>, i: nat)
    requires i < |ts|
    ensures var n := After(ts, i);
      && (n == |ts| ==> Else(ts, i) == Done(Message(ElseIncomplete)))
      && (n < |ts| ==> (Else(ts, i) == Proceed <==> IsKeyword(ts[n], "if")))
      && (n < |ts| && !IsKeyword(ts[n], "if") ==> Else(ts, i) == Done(Message(ElseValid)))
      && (n < |ts| && ts[n].kind == LBrace ==> Else(ts, i) == Done(Message(ElseValid)))
  {
    AfterCurrent(ts, i);
    if After(ts, i) < |ts| {
      KindNames(ts[After(ts, i)].kind);
    }
  }

  /** The cursor loops of the `for` checker report the first of `;`, `;`,
      `)` missing in this order, and accept exactly when all three follow. */
  lemma ForClausesOrder(ks: seq<TokenKind>, from: nat)
    requires from <= |ks|
    ensures ForClauses(ks, from) == ForFirst <==> !Later(ks, from, Semicolon)
    ensures ForClauses(ks, from) == ForSecond <==>
      Later(ks, from, Semicolon) && !Later2(ks, from, Semicolon, Semicolon)
    ensures ForClauses(ks, from) == ForClose <==>
      Later2(ks, from, Semicolon, Semicolon) && !Later3(ks, from, Semicolon, Semicolon, RParen)
    ensures ForClauses(ks, from) == ForValid <==> Later3(ks, from, Semicolon, Semicolon, RParen)
  {
    var p := Seek(ks, from, Semicolon);
    SeekFinds(ks, from, Semicolon);
    SeekFinds2(ks, from, Semicolon, Semicolon);
    SeekFinds3(ks, from, Semicolon, Semicolon, RParen);
    if p < |ks| {
      var q := Seek(ks, p + 1, Semicolon);
      SeekFinds(ks, p + 1, Semicolon);
      SeekFinds2(ks, p + 1, Semicolon, RParen);
      if q < |ks| {
        SeekFinds(ks, q + 1, RParen);
      }
    }
  }

  /** The `for` checker reports a missing `(`, then a missing first `;`,
      then a missing second `;`, then a missing `)`, and accepts exactly
      `(` followed somewhere by `;`, `;` and `)` in this order. */
  lemma ForLoopOrder(ts: seq<Token>, i: nat)
    requires i < |ts|
    ensures var n := After(ts, i);
      !(n < |ts| && ts[n].kind == LParen) ==> ForLoop(ts, i) == Done(Message(ForOpen))
    ensures var n := After(ts, i);
      n < |ts| && ts[n].kind == LParen ==>
        && (ForLoop(ts, i) == Done(Message(ForFirst)) <==> !Later(Kinds(ts), n + 1, Semicolon))
        && (ForLoop(ts, i) == Done(Message(ForSecond)) <==>
              Later(Kinds(ts), n + 1, Semicolon) && !Later2(Kinds(ts), n + 1, Semicolon, Semicolon))
        && (ForLoop(ts, i) == Done(Message(ForClose)) <==>
              Later2(Kinds(ts), n + 1, Semicolon, Semicolon) && !Later3(Kinds(ts), n + 1, Semicolon, Semicolon, RParen))
        && (ForLoop(ts, i) == Done(Message(ForValid)) <==> Later3(Kinds(ts), n + 1, Semicolon, Semicolon, RParen))
  {
    var n := After(ts, i);
    if n < |ts| && ts[n].kind == LParen {
      ForClausesOrder(Kinds(ts), n + 1);
    }
  }


  /** The `while` checker reports a missing `(` before a missing `)`. */
  lemma WhileLoopOrder(ts: seq<Token>, i: nat)
    requires i < |ts|
    ensures var n := After(ts, i);
      var opens := n < |ts| && ts[n].kind == LParen;
      && (!opens ==> WhileLoop(ts, i) == Done(Message(WhileOpen)))
      && (opens && !Later(Kinds(ts), n + 1, RParen) ==> WhileLoop(ts, i) == Done(Message(WhileClose)))
      && (WhileLoop(ts, i) == Done(Message(WhileValid)) <==> opens && Later(Kinds(ts), n + 1, RParen))
  {
    var n := After(ts, i);
    AfterCurrent(ts, i);
    if n < |ts| && ts[n].kind == LParen {
      SeekFinds(Kinds(ts), n + 1, RParen);
    }
  }

  /** A reserved word reports a missing `(` before a missing `)`, quoting
      itself. */
  lemma ReservedCallOrder(ts: seq<Token>, i: nat)
    requires i < |ts|
    ensures var n, v := After(ts, i), ts[i].lexeme;
      var opens := n < |ts| && ts[n].kind == LParen;
      && (!opens ==> ReservedCall(ts, i) == Done(Message(ReservedOpen(v))))
      && (opens && !Later(Kinds(ts), n + 1, RParen) ==> ReservedCall(ts, i) == Done(Message(ReservedClose(v))))
      && (ReservedCall(ts, i) == Done(Message(ReservedValid(v))) <==> opens && Later(Kinds(ts), n + 1, RParen))
  {
    var n := After(ts, i);
    AfterCurrent(ts, i);
    if n < |ts| && ts[n].kind == LParen {
      SeekFinds(Kinds(ts), n + 1, RParen);
    }
  }

  /** A data binding is valid exactly when a closing delimiter follows. */
  lemma DataBindingOutcomes(ts: seq<Token>, i: nat)
    requires i < |ts|
    ensures DataBinding(ts, i) == Done(Message(BindingValid)) <==> Later(Kinds(ts), After(ts, i), DataBindingEnd)
    ensures DataBinding(ts, i) != Done(Message(BindingValid)) ==> DataBinding(ts, i) == Done(Message(BindingClose))
  {
    AfterCurrent(ts, i);
    SeekFinds(Kinds(ts), After(ts, i), DataBindingEnd);
  }

  /** `print` accepts exactly one string literal, integer literal or
      identifier between parentheses, and reports a missing `(`, then a
      missing argument, then a missing `)`. */
  lemma PrintCallOutcomes(ts: seq<Token>, i: nat)
    requires i < |ts|
    ensures var n := After(ts, i);
      var opens := n < |ts| && ts[n].kind == LParen;
      && (PrintCall(ts, i) == Done(Message(PrintValid)) <==>
            opens && n + 2 < |ts| && IsPrintable(ts[n + 1].kind) && ts[n + 2].kind == RParen)
      && (!opens ==> PrintCall(ts, i) == Done(Message(PrintOpen)))
      && (opens && !(n + 1 < |ts| && IsPrintable(ts[n + 1].kind)) ==> PrintCall(ts, i) == Done(Message(PrintArgument)))
      && (opens && n + 1 < |ts| && IsPrintable(ts[n + 1].kind) && !(n + 2 < |ts| && ts[n + 2].kind == RParen) ==>
            PrintCall(ts, i) == Done(Message(PrintClose)))
  {
  }

  // ---------------------------------------------------------------------
  // The whole scan: which token decides, and what the flags say
  // ---------------------------------------------------------------------

  /** What the scan learns from one token: whether it opens or closes a
      comment, and what its checker says. */
  datatype Step = Step(opens: bool, closes: bool, outcome: Outcome)

  /** The steps of the first `n` tokens. */
  function StepsUpTo(ts: seq<Token>, n: nat): (ss: seq<Step>)
    requires n <= |ts|
    ensures |ss| == n
  {
    if n == 0 then [] else StepsUpTo(ts, n - 1) + [Step(OpensComment(ts[n - 1]), ClosesComment(ts[n - 1]), Check(ts, n - 1))]
  }

  function Steps(ts: seq<Token>): (ss: seq<Step>)
    ensures |ss| == |ts|
  {
    StepsUpTo(ts, |ts|)
  }

  lemma {:induction false} StepAt(ts: seq<Token>, n: nat, j: nat)
    requires j < n <= |ts|
    ensures StepsUpTo(ts, n)[j] == Step(OpensComment(ts[j]), ClosesComment(ts[j]), Check(ts, j))
  {
    if j < n - 1 {
      StepAt(ts, n - 1, j);
    }
  }

  /** The scan on steps: `AnalyzeFrom` with every checker already run. */
  function Walk(ss: seq<Step>, i: nat, inComment: bool, declared: set<TypeWord>): Verdict
    requires i <= |ss|
    decreases |ss| - i
  {
    if i == |ss| then Message(Summary(declared))
    else if inComment then Walk(ss, i + 1, !ss[i].closes, declared)
    else if ss[i].opens then Walk(ss, i + 1, true, declared)
    else
      match ss[i].outcome
      case Done(v) => v
      case Declares(t) => Walk(ss, i + 1, false, declared + {t})
      case Proceed => Walk(ss, i + 1, false, declared)
  }

  /** The checkers are pure, so running them all first changes nothing. */
  lemma {:induction false} AnalyzeWalks(ts: seq<Token>, i: nat, inComment: bool, declared: set<TypeWord>)
    requires i <= |ts|
    ensures AnalyzeFrom(ts, i, inComment, declared) == Walk(Steps(ts), i, inComment, declared)
    decreases |ts| - i
  {
    if i < |ts| {
      StepAt(ts, |ts|, i);
      AnalyzeWalks(ts, i + 1, !ClosesComment(ts[i]), declared);
      AnalyzeWalks(ts, i + 1, true, declared);
      AnalyzeWalks(ts, i + 1, false, declared);
      if Check(ts, i).Declares? {
        AnalyzeWalks(ts, i + 1, false, declared + {Check(ts, i).t});
      }
    }
  }

  /** Whether the scan is inside a multi-line comment when it reaches
      position `i`, had it not stopped before. */
  function InComment(ss: seq<Step>, i: nat): bool
    requires i <= |ss|
  {
    if i == 0 then false
    else if InComment(ss, i - 1) then !ss[i - 1].closes
    else ss[i - 1].opens
  }

  /** The token at `i` reaches the checkers: it is neither inside a comment
      nor the start of one. */
  predicate Checked(ss: seq<Step>, i: nat)
    requires i < |ss|
  {
    !InComment(ss, i) && !ss[i].opens
  }

  /** The token at `i` reaches the checkers and its checker returns. */
  predicate Answers(ss: seq<Step>, i: nat)
    requires i < |ss|
  {
    Checked(ss, i) && ss[i].outcome.Done?
  }

  /** The types of the declarations that raise their flag among the checked
      tokens of `[lo, hi)`. */
  function DeclaredBetween(ss: seq<Step>, lo: nat, hi: nat): set<TypeWord>
    requires lo <= hi <= |ss|
  {
    set j | lo <= j < hi && Checked(ss, j) && ss[j].outcome.Declares? :: ss[j].outcome.t
  }

  /** Taking off the first position of `[lo, hi)`. */
  lemma DeclaredSplit(ss: seq<Step>, lo: nat, hi: nat)
    requires lo < hi <= |ss|
    ensures DeclaredBetween(ss, lo, hi) ==
      (if Checked(ss, lo) && ss[lo].outcome.Declares? then {ss[lo].outcome.t} else {}) + DeclaredBetween(ss, lo + 1, hi)
  {
  }

  /** When no token from `i` on answers, the scan ends with the summary of
      the flags raised before `i` and from `i` on. */
  lemma {:induction false} WalkSummary(ss: seq<Step>, i: nat, declared: set<TypeWord>)
    requires i <= |ss|
    requires forall j :: i <= j < |ss| ==> !Answers(ss, j)
    ensures Walk(ss, i, InComment(ss, i), declared) == Message(Summary(declared + DeclaredBetween(ss, i, |ss|)))
    decreases |ss| - i
  {
    if i < |ss| {
      var c := InComment(ss, i);
      assert InComment(ss, i + 1) == if c then !ss[i].closes else ss[i].opens;
      assert !Answers(ss, i);
      DeclaredSplit(ss, i, |ss|);
      if c || ss[i].opens {
        WalkSummary(ss, i + 1, declared);
      } else if ss[i].outcome.Declares? {
        var t := ss[i].outcome.t;
        WalkSummary(ss, i + 1, declared + {t});
        assert declared + {t} + DeclaredBetween(ss, i + 1, |ss|) == declared + DeclaredBetween(ss, i, |ss|);
      } else {
        WalkSummary(ss, i + 1, declared);
      }
    }
  }

  /** The first token from `i` on that answers decides the scan. */
  lemma {:induction false} WalkAnswer(ss: seq<Step>, i: nat, j: nat, declared: set<TypeWord>)
    requires i <= j < |ss| && Answers(ss, j)
    requires forall k :: i <= k < j ==> !Answers(ss, k)
    ensures Walk(ss, i, InComment(ss, i), declared) == ss[j].outcome.verdict
    decreases j - i
  {
    if i < j {
      var c := InComment(ss, i);
      assert InComment(ss, i + 1) == if c then !ss[i].closes else ss[i].opens;
      assert !Answers(ss, i);
      if c || ss[i].opens {
        WalkAnswer(ss, i + 1, j, declared);
      } else if ss[i].outcome.Declares? {
        WalkAnswer(ss, i + 1, j, declared + {ss[i].outcome.t});
      } else {
        WalkAnswer(ss, i + 1, j, declared);
      }
    }
  }

  /** Inside a comment every token up to the one that closes it is skipped,
      and the scan is out of the comment after it. */
  lemma {:induction false} InsideStays(ss: seq<Step>, p: nat, k: nat)
    requires p < k <= |ss| && !InComment(ss, p) && ss[p].opens
    requires forall m :: p < m < k ==> !ss[m].closes
    ensures InComment(ss, k)
    decreases k - p
  {
    if k > p + 1 {
      InsideStays(ss, p, k - 1);
    }
  }

  /** A comment opened at `p` and closed at `q` hides every token from `p`
      to `q` from the checkers, and the token after `q` is looked at again. */
  lemma CommentSkipped(ss: seq<Step>, p: nat, q: nat)
    requires p < q < |ss| && !InComment(ss, p) && ss[p].opens && ss[q].closes
    requires forall m :: p < m < q ==> !ss[m].closes
    ensures forall k :: p <= k <= q ==> !Checked(ss, k)
    ensures !InComment(ss, q + 1)
  {
    forall k | p < k <= q
      ensures InComment(ss, k)
    {
      InsideStays(ss, p, k);
    }
  }

  /** Without a comment opener, every token reaches the checkers. */
  lemma {:induction false} NoOpenerAllChecked(ss: seq<Step>, i: nat)
    requires i <= |ss|
    requires forall j :: 0 <= j < |ss| ==> !ss[j].opens
    ensures !InComment(ss, i)
    ensures forall j :: 0 <= j < i ==> Checked(ss, j)
  {
    if i > 0 {
      NoOpenerAllChecked(ss, i - 1);
    }
  }

  /** `syntax_analyzer` returns the message of the first checked token whose
      checker answers. */
  lemma AnalyzeAnswer(ts: seq<Token>, j: nat)
    requires j < |ts| && Answers(Steps(ts), j)
    requires forall k :: 0 <= k < j ==> !Answers(Steps(ts), k)
    ensures Check(ts, j) == Done(Analyze(ts))
  {
    AnalyzeWalks(ts, 0, false, {});
    WalkAnswer(Steps(ts), 0, j, {});
    StepAt(ts, |ts|, j);
  }

  /** When no checked token answers, `syntax_analyzer` returns the summary
      of the declarations that raised their flag. */
  lemma AnalyzeSummary(ts: seq<Token>)
    requires forall k :: 0 <= k < |ts| ==> !Answers(Steps(ts), k)
    ensures Analyze(ts) == Message(Summary(DeclaredBetween(Steps(ts), 0, |ts|)))
  {
    AnalyzeWalks(ts, 0, false, {});
    WalkSummary(Steps(ts), 0, {});
  }

  /** The order in which kaChing.py:485-500 tries the flags. */
  function Rank(t: TypeWord): nat {
    match t
    case Int => 0
    case Str => 1
    case Char => 2
    case Float => 3
    case Double => 4
    case Bool => 5
    case Long => 6
  }

  /** The summary names the earliest raised flag in that order, and says
      `Invalid Syntax` exactly when no flag is raised. */
  lemma SummaryFirstFlag(declared: set<TypeWord>)
    ensures Summary(declared) == InvalidSyntax <==> declared == {}
    ensures Summary(declared) != InvalidSyntax ==>
      && Summary(declared).Declared?
      && Summary(declared).t in declared
      && forall u :: u in declared ==> Rank(Summary(declared).t) <= Rank(u)
  {
    if declared != {} {
      var u :| u in declared;
      assert u.Int? || u.Str? || u.Char? || u.Float? || u.Double? || u.Bool? || u.Long?;
    }
  }

  /** A repeated token is checked from its first occurrence: in
      `int x ; int = 5` the second `int` reads `x ;` and raises its flag,
      where on its own `int = 5` lacks the identifier. */
  lemma RepeatedTokenChecksFirst()
    ensures var ts := [Token(Keywords, "int"), Token(Identifier, "x"), Token(Semicolon, ";"),
                       Token(Keywords, "int"), Token(OperatorAssignment, "="), Token(IntLiteral, "5")];
      && After(ts, 3) == 1
      && Check(ts, 3) == Declares(Int)
      && Check(ts[3..], 0) == Done(Message(IdentifierExpected("int")))
  {
    var ts := [Token(Keywords, "int"), Token(Identifier, "x"), Token(Semicolon, ";"),
               Token(Keywords, "int"), Token(OperatorAssignment, "="), Token(IntLiteral, "5")];
    assert TypeOf("int") == Some(Int);
    assert ts[0] == ts[3];
    assert ts[3..][0] == Token(Keywords, "int");
  }

  /** A comment token that both opens and closes still leaves the scan
      inside a comment, so the token after it is skipped. */
  lemma SelfClosingCommentHidesNext()
    ensures Analyze([Token(MultiLineComment, "/**/"), Token(Keywords, "print")]) == Message(InvalidSyntax)
    ensures Analyze([Token(Keywords, "print")]) == Message(PrintOpen)
  {
    var c := Token(MultiLineComment, "/**/");
    assert OpensComment(c) && ClosesComment(c);
    assert Check([Token(Keywords, "print")], 0) == Done(Message(PrintOpen));
  }
}
