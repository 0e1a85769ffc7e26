/** The token kinds and the ordered classification table of the kaChing
    lexer (kaChing.py:5-49), and the classification of one lexeme by the
    first table entry whose pattern matches the whole of it (kaChing.py:64-69).
    Each regular expression of the table is written out as a predicate over
    ASCII text. */
module Lexicon {
  import opened Wrappers
  import opened Strings

  /** Every kind the table can give, in table order, then the two kinds the
      lexer produces outside the table. */
  datatype TokenKind =
    | OperatorAssignment | UnaryOperator | OperatorArithmetic | OperatorLogic | OperatorRelation
    | Keywords | ReservedWords | IntLiteral | StringLiteral | Identifier | SingleLineComment
    | Apostrophe | QuotationSign | Comma | Colon | Semicolon | LBrace | RBrace | LParen | RParen
    | LBracket | RBracket | DataBindingStart | DataBindingEnd | WhiteSpace | ValueSign | Newline
    | Error
    | Unknown            // no table entry matched
    | MultiLineComment   // a `/* ... */` span, made by the line scanner

  /** A classified lexeme: the `(token_type, lexeme)` pair of the source. */
  datatype Token = Token(kind: TokenKind, lexeme: string)

  /** The name the source gives each kind. */
  function Name(k: TokenKind): string {
    match k
    case OperatorAssignment => "OPERATOR_ASSIGNMENT"
    case UnaryOperator => "UNARY_OPERATOR"
    case OperatorArithmetic => "OPERATOR_ARITHMETIC"
    case OperatorLogic => "OPERATOR_LOGIC"
    case OperatorRelation => "OPERATOR_RELATION"
    case Keywords => "KEYWORDS"
    case ReservedWords => "RESERVEDWORDS"
    case IntLiteral => "INT_LITERAL"
    case StringLiteral => "STRING_LITERAL"
    case Identifier => "IDENTIFIER"
    case SingleLineComment => "SINGLE_LINE_COMMENT"
    case Apostrophe => "APOSTROPHE"
    case QuotationSign => "QUOTATION_SIGN"
    case Comma => "COMMA"
    case Colon => "COLON"
    case Semicolon => "SEMICOLON"
    case LBrace => "LBRACE"
    case RBrace => "RBRACE"
    case LParen => "LPAREN"
    case RParen => "RPAREN"
    case LBracket => "LBRACKET"
    case RBracket => "RBRACKET"
    case DataBindingStart => "DATA_BINDING_START"
    case DataBindingEnd => "DATA_BINDING_END"
    case WhiteSpace => "WHITE_SPACE"
    case ValueSign => "VALUE_SIGN"
    case Newline => "NEWLINE"
    case Error => "ERROR"
    case Unknown => "UNKNOWN"
    case MultiLineComment => "MULTI_LINE_COMMENT"
  }

  /** The number of entries in the table. */
  const TableSize: nat := 28

  /** The table, in the order its entries are tried: the kind at each position. */
  function Entry(i: nat): TokenKind
    requires i < TableSize
  {
    match i
    case 0 => OperatorAssignment
    case 1 => UnaryOperator
    case 2 => OperatorArithmetic
    case 3 => OperatorLogic
    case 4 => OperatorRelation
    case 5 => Keywords
    case 6 => ReservedWords
    case 7 => IntLiteral
    case 8 => StringLiteral
    case 9 => Identifier
    case 10 => SingleLineComment
    case 11 => Apostrophe
    case 12 => QuotationSign
    case 13 => Comma
    case 14 => Colon
    case 15 => Semicolon
    case 16 => LBrace
    case 17 => RBrace
    case 18 => LParen
    case 19 => RParen
    case 20 => LBracket
    case 21 => RBracket
    case 22 => DataBindingStart
    case 23 => DataBindingEnd
    case 24 => WhiteSpace
    case 25 => ValueSign
    case 26 => Newline
    case _ => Error
  }

  /** Position of a kind in the table; the two kinds outside it come after. */
  function Rank(k: TokenKind): nat {
    match k
    case OperatorAssignment => 0
    case UnaryOperator => 1
    case OperatorArithmetic => 2
    case OperatorLogic => 3
    case OperatorRelation => 4
    case Keywords => 5
    case ReservedWords => 6
    case IntLiteral => 7
    case StringLiteral => 8
    case Identifier => 9
    case SingleLineComment => 10
    case Apostrophe => 11
    case QuotationSign => 12
    case Comma => 13
    case Colon => 14
    case Semicolon => 15
    case LBrace => 16
    case RBrace => 17
    case LParen => 18
    case RParen => 19
    case LBracket => 20
    case RBracket => 21
    case DataBindingStart => 22
    case DataBindingEnd => 23
    case WhiteSpace => 24
    case ValueSign => 25
    case Newline => 26
    case Error => 27
    case Unknown => 28
    case MultiLineComment => 29
  }

  lemma EntryRanks()
    ensures forall i :: 0 <= i < TableSize ==> Rank(Entry(i)) == i
  {
  }

  /** `w` is the one character `a`. */
  predicate Is1(w: string, a: char) {
    |w| == 1 && w[0] == a
  }

  /** `w` is the two characters `a`, `b`. */
  predicate Is2(w: string, a: char, b: char) {
    |w| == 2 && w[0] == a && w[1] == b
  }

  /** `(\+=|\-=|\*=|/=|%=|\~=|=)` */
  predicate IsAssignmentOperator(w: string) {
    Is2(w, '+', '=') || Is2(w, '-', '=') || Is2(w, '*', '=') || Is2(w, '/', '=')
    || Is2(w, '%', '=') || Is2(w, '~', '=') || Is1(w, '=')
  }

  /** `(\+\+|\-\-)` */
  predicate IsUnaryOperator(w: string) {
    Is2(w, '+', '+') || Is2(w, '-', '-')
  }

  /** `(\=|\+|\-|\*|\/|\%|\~|\^)` */
  predicate IsArithmeticOperator(w: string) {
    Is1(w, '=') || Is1(w, '+') || Is1(w, '-') || Is1(w, '*')
    || Is1(w, '/') || Is1(w, '%') || Is1(w, '~') || Is1(w, '^')
  }

  /** `(\!|\|\||&&)` */
  predicate IsLogicOperator(w: string) {
    Is1(w, '!') || Is2(w, '|', '|') || Is2(w, '&', '&')
  }

  /** `(==|!=|>|<|>=|<=)` */
  predicate IsRelationOperator(w: string) {
    Is2(w, '=', '=') || Is2(w, '!', '=') || Is1(w, '>') || Is1(w, '<')
    || Is2(w, '>', '=') || Is2(w, '<', '=')
  }

  /** The keyword alternation (kaChing.py:19-22), one predicate per source line. */
  predicate IsKeyword(w: string) {
    KeywordsA(w) || KeywordsB(w) || KeywordsC(w) || KeywordsD(w)
  }

  predicate KeywordsA(w: string) {
    w == "int" || w == "string" || w == "char" || w == "float" || w == "double"
    || w == "bool" || w == "long" || w == "if" || w == "else" || w == "while"
    || w == "scan" || w == "break" || w == "default" || w == "print"
  }

  predicate KeywordsB(w: string) {
    w == "false" || w == "none" || w == "true" || w == "and" || w == "as"
    || w == "assert" || w == "continue" || w == "def" || w == "del" || w == "elif"
    || w == "except" || w == "finally" || w == "for" || w == "from" || w == "global"
    || w == "import"
  }

  predicate KeywordsC(w: string) {
    w == "in" || w == "is" || w == "lambda" || w == "nonlocal"
  }

  predicate KeywordsD(w: string) {
    w == "not" || w == "or" || w == "pass" || w == "raise" || w == "return"
    || w == "try" || w == "with" || w == "yield"
  }

  /** The reserved-word alternation (kaChing.py:23-27), one predicate per
      source line (`interest_rate` is listed twice there). */
  predicate IsReservedWord(w: string) {
    ReservedA(w) || ReservedB(w) || ReservedC(w) || ReservedD(w) || ReservedE(w)
  }

  predicate ReservedA(w: string) {
    w == "kdelete" || w == "kremove" || w == "kupdate" || w == "ksection"
    || w == "ktotal" || w == "kadd" || w == "ksub" || w == "financial_statement"
    || w == "asset" || w == "liability" || w == "equity" || w == "revenues"
    || w == "expenses" || w == "gains"
  }

  predicate ReservedB(w: string) {
    w == "losses" || w == "net_income" || w == "operating" || w == "investing"
    || w == "financing" || w == "ocbalance" || w == "ccbalance" || w == "bank_system"
    || w == "baccount" || w == "bafreeze" || w == "baclose"
  }

  predicate ReservedC(w: string) {
    w == "account_number" || w == "account_holder" || w == "credit" || w == "debit"
    || w == "account_balance" || w == "brdeposit" || w == "brwithdraw" || w == "brtransfer"
    || w == "bcpayroll" || w == "bcrollout" || w == "bcemployee" || w == "rate"
  }

  predicate ReservedD(w: string) {
    w == "overtime" || w == "earnings" || w == "net_pay" || w == "deductions"
    || w == "taxes" || w == "benefits" || w == "biloan" || w == "biinvest"
    || w == "principal" || w == "interest_rate" || w == "time_period" || w == "compound_interest"
  }

  predicate ReservedE(w: string) {
    w == "simple_interest" || w == "return_on_investment" || w == "loan_amount" || w == "installment_amount"
    || w == "interest_rate" || w == "loan_term" || w == "total_payment"
  }

  /** Where the quoted literal whose body is scanned from `j` ends, following
      `q([^q\\]*(\\.[^q\\]*)*)q`: the index just after the first closing quote
      `q` that is not escaped. A backslash escapes any one character except a
      newline; a backslash before a newline or at the end means no literal. */
  function QuotedEnd(s: string, j: nat, q: char): (r: Option<nat>)
    requires j <= |s|
    ensures r.Some? ==> j < r.value <= |s| && s[r.value - 1] == q
    decreases |s| - j
  {
    if j == |s| then None
    else if s[j] == q then Some(j + 1)
    else if s[j] == '\\' then
      if j + 1 < |s| && s[j + 1] != '\n' then QuotedEnd(s, j + 2, q) else None
    else QuotedEnd(s, j + 1, q)
  }

  /** `w` is, as a whole, one literal quoted with `q`. */
  predicate IsQuoted(w: string, q: char) {
    |w| >= 2 && w[0] == q && QuotedEnd(w, 1, q) == Some(|w|)
  }

  /** Whether the pattern of table entry `k` matches the whole of `w`
      (`re.fullmatch`). The two kinds outside the table match nothing. */
  predicate Matches(k: TokenKind, w: string) {
    match k
    case OperatorAssignment => IsAssignmentOperator(w)
    case UnaryOperator => IsUnaryOperator(w)
    case OperatorArithmetic => IsArithmeticOperator(w)
    case OperatorLogic => IsLogicOperator(w)
    case OperatorRelation => IsRelationOperator(w)
    case Keywords => IsKeyword(w)
    case ReservedWords => IsReservedWord(w)
    case IntLiteral => AllDigits(w)
    case StringLiteral => IsQuoted(w, '"')
    case Identifier => IsIdentifier(w)
    case SingleLineComment => IsComment(w)
    case Apostrophe => Is1(w, '\'')
    case QuotationSign => Is1(w, '"')
    case Comma => Is1(w, ',')
    case Colon => Is1(w, ':')
    case Semicolon => Is1(w, ';')
    case LBrace => Is1(w, '{')
    case RBrace => Is1(w, '}')
    case LParen => Is1(w, '(')
    case RParen => Is1(w, ')')
    case LBracket => Is1(w, '[')
    case RBracket => Is1(w, ']')
    case DataBindingStart => Is2(w, '<', '%')
    case DataBindingEnd => Is2(w, '%', '>')
    case WhiteSpace => IsWhiteSpace(w)
    case ValueSign => Is1(w, ':')
    case Newline => Is1(w, '\n')
    case Error => |w| == 1 && w[0] != '\n'
    case Unknown => false
    case MultiLineComment => false
  }

  /** `[a-zA-Z_][a-zA-Z0-9_]*` */
  predicate IsIdentifier(w: string) {
    |w| > 0 && IsIdentStart(w[0]) && forall i :: 1 <= i < |w| ==> IsWordChar(w[i])
  }

  /** `(#.*)$`: a `#` and then anything but a line break. */
  predicate IsComment(w: string) {
    |w| > 0 && w[0] == '#' && forall i :: 1 <= i < |w| ==> w[i] != '\n'
  }

  /** `\s+` */
  predicate IsWhiteSpace(w: string) {
    |w| > 0 && forall i :: 0 <= i < |w| ==> IsSpace(w[i])
  }

  /** A run of digits, `\d+`. */
  predicate AllDigits(w: string) {
    |w| > 0 && forall p :: 0 <= p < |w| ==> IsDigit(w[p])
  }

  /** Whether each entry of the table matches `w`, in table order. */
  function Verdicts(w: string): (v: seq<bool>)
    ensures |v| == TableSize
    ensures forall j :: 0 <= j < |v| ==> v[j] == Matches(Entry(j), w)
  {
    seq(TableSize, j requires 0 <= j < TableSize => Matches(Entry(j), w))
  }

  /** The first position from `i` that holds `true`, or `|v|` when none does. */
  function FirstTrue(v: seq<bool>, i: nat): (n: nat)
    requires i <= |v|
    ensures i <= n <= |v|
    decreases |v| - i
  {
    if i == |v| then |v| else if v[i] then i else FirstTrue(v, i + 1)
  }

  /** The search from `i` stops at the earliest `true` at or after `i`. */
  lemma {:induction false} FirstTrueIsEarliest(v: seq<bool>, i: nat)
    requires i <= |v|
    ensures var n := FirstTrue(v, i);
      && (n < |v| ==> v[n])
      && (forall j :: i <= j < n ==> !v[j])
    decreases |v| - i
  {
    if i < |v| && !v[i] {
      FirstTrueIsEarliest(v, i + 1);
    }
  }

  /** The entry at position `n`, or `Unknown` just past the table. */
  function EntryAt(n: nat): TokenKind
    requires n <= TableSize
  {
    if n == TableSize then Unknown else Entry(n)
  }

  /** The position of the first entry from `i` on whose pattern matches the
      whole of `w`, or `TableSize` when none does. */
  function FirstMatch(w: string, i: nat): nat
    requires i <= TableSize
  {
    FirstTrue(Verdicts(w), i)
  }

  /** The kind of lexeme `w`: the earliest table entry that matches all of
      it, `Unknown` when none does. */
  function Classify(w: string): TokenKind {
    EntryAt(FirstMatch(w, 0))
  }

  /** Classification picks the earliest table entry whose pattern matches the
      whole lexeme, and gives `Unknown` exactly when no entry matches. */
  lemma ClassifyIsEarliest(w: string)
    ensures var r := Classify(w);
      && (r == Unknown <==> forall j :: 0 <= j < TableSize ==> !Matches(Entry(j), w))
      && (r != Unknown ==> Rank(r) < TableSize && Entry(Rank(r)) == r && Matches(r, w))
      && (forall j :: 0 <= j < Rank(r) && j < TableSize ==> !Matches(Entry(j), w))
  {
    var v := Verdicts(w);
    FirstTrueIsEarliest(v, 0);
    EntryRanks();
  }

  /** The classification loop of kaChing.py:64-69: the entries are tried in
      table order and the first whose pattern matches the whole lexeme wins. */
  method ClassifyLexeme(w: string) returns (k: TokenKind)
    ensures k == Classify(w)
  {
    ghost var v := Verdicts(w);
    var i := 0;
    while i < TableSize
      invariant i <= TableSize
      invariant FirstTrue(v, i) == FirstTrue(v, 0)
      decreases TableSize - i
    {
      if Matches(Entry(i), w) {
        return Entry(i);
      }
      i := i + 1;
    }
    return Unknown;
  }
}
