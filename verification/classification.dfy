/** What the order of the classification table implies: which kind each
    shape of lexeme gets (kaChing.py:13-49, 64-69). */
module Classification {
  import opened Strings
  import opened Lexicon

  /** Every kind but the two outside the table sits at its rank. */
  lemma InTable(k: TokenKind)
    ensures k != Unknown && k != MultiLineComment ==> Rank(k) < TableSize && Entry(Rank(k)) == k
  {
  }

  /** The classification, unless `Unknown`, matches the lexeme. */
  lemma ClassifyMatches(w: string)
    ensures Classify(w) != Unknown ==> Matches(Classify(w), w)
  {
    ClassifyIsEarliest(w);
  }

  /** A lexeme that no kind matches is `UNKNOWN`. */
  lemma NoneMatch(w: string)
    requires forall e :: !Matches(e, w)
    ensures Classify(w) == Unknown
  {
    ClassifyIsEarliest(w);
  }

  /** A kind whose pattern does not match is never the classification. */
  lemma NeverKind(w: string, k: TokenKind)
    requires k != Unknown && !Matches(k, w)
    ensures Classify(w) != k
  {
    ClassifyIsEarliest(w);
  }

  /** An entry that matches bounds the classification from above. */
  lemma ClassifiedNoLaterThan(w: string, k: TokenKind)
    requires Matches(k, w)
    ensures Classify(w) != Unknown && Rank(Classify(w)) <= Rank(k)
  {
    InTable(k);
    ClassifyIsEarliest(w);
  }

  /** The keyword and reserved-word entries match nothing that starts
      otherwise than a letter or `_`. */
  lemma KeywordEntriesMiss(w: string, e: TokenKind)
    requires |w| > 0 && !IsIdentStart(w[0])
    ensures Rank(e) == 5 || Rank(e) == 6 ==> !Matches(e, w)
  {
    KeywordsStartWithLetter(w);
  }

  /** The characters an operator can start with. */
  predicate IsOperatorChar(c: char) {
    c == '=' || c == '+' || c == '-' || c == '*' || c == '/' || c == '%' || c == '~' || c == '^'
    || c == '!' || c == '|' || c == '&' || c == '>' || c == '<'
  }

  /** Every operator pattern matches only lexemes that start with an
      operator character. */
  lemma OperatorsStartWithSymbol(w: string)
    ensures IsAssignmentOperator(w) || IsUnaryOperator(w) || IsArithmeticOperator(w)
            || IsLogicOperator(w) || IsRelationOperator(w)
            ==> |w| > 0 && IsOperatorChar(w[0])
  {
  }

  /** The five operator entries match nothing that starts otherwise. */
  lemma OperatorsMiss(w: string, e: TokenKind)
    requires |w| > 0 && !IsOperatorChar(w[0])
    ensures Rank(e) < 5 ==> !Matches(e, w)
  {
    OperatorsStartWithSymbol(w);
  }

  /** The entries from `SINGLE_LINE_COMMENT` on match only single
      characters, `<%`, `%>`, comments and white space. */
  lemma LateKindsMiss(w: string, e: TokenKind)
    requires |w| >= 2 && w[0] != '#' && !IsSpace(w[0]) && w[0] != '<' && w[0] != '%'
    ensures Rank(e) >= 10 ==> !Matches(e, w)
  {
  }

  /** The length, first and last character of some keyword: enough to tell
      keywords from reserved words. */
  predicate KeywordShape(w: string) {
    |w| > 0 &&
    var n, a, z := |w|, w[0], w[|w| - 1];
    false
    || (n == 2 && ((a == 'a' && z == 's') || (a == 'i' && z == 'f') || (a == 'i' && z == 'n') || (a == 'i' && z == 's') || (a == 'o' && z == 'r')))
    || (n == 3 && ((a == 'a' && z == 'd') || (a == 'd' && z == 'f') || (a == 'd' && z == 'l') || (a == 'f' && z == 'r') || (a == 'i' && z == 't') || (a == 'n' && z == 't') || (a == 't' && z == 'y')))
    || (n == 4 && ((a == 'b' && z == 'l') || (a == 'c' && z == 'r') || (a == 'e' && z == 'e') || (a == 'e' && z == 'f') || (a == 'f' && z == 'm') || (a == 'l' && z == 'g') || (a == 'n' && z == 'e') || (a == 'p' && z == 's') || (a == 's' && z == 'n') || (a == 't' && z == 'e') || (a == 'w' && z == 'h')))
    || (n == 5 && ((a == 'b' && z == 'k') || (a == 'f' && z == 'e') || (a == 'f' && z == 't') || (a == 'p' && z == 't') || (a == 'r' && z == 'e') || (a == 'w' && z == 'e') || (a == 'y' && z == 'd')))
    || (n == 6 && ((a == 'a' && z == 't') || (a == 'd' && z == 'e') || (a == 'e' && z == 't') || (a == 'g' && z == 'l') || (a == 'i' && z == 't') || (a == 'l' && z == 'a') || (a == 'r' && z == 'n') || (a == 's' && z == 'g')))
    || (n == 7 && ((a == 'd' && z == 't') || (a == 'f' && z == 'y')))
    || (n == 8 && ((a == 'c' && z == 'e') || (a == 'n' && z == 'l')))
  }

  lemma KeywordShapeA(w: string) requires KeywordsA(w) ensures KeywordShape(w) {}
  lemma KeywordShapeB(w: string) requires KeywordsB(w) ensures KeywordShape(w) {}
  lemma KeywordShapeC(w: string) requires KeywordsC(w) ensures KeywordShape(w) {}
  lemma KeywordShapeD(w: string) requires KeywordsD(w) ensures KeywordShape(w) {}

  /** Every keyword has the shape of one. */
  lemma KeywordHasShape(w: string)
    requires IsKeyword(w)
    ensures KeywordShape(w)
  {
    if KeywordsA(w) {
      KeywordShapeA(w);
    } else if KeywordsB(w) {
      KeywordShapeB(w);
    } else if KeywordsC(w) {
      KeywordShapeC(w);
    } else {
      KeywordShapeD(w);
    }
  }

  lemma ReservedShapeA(w: string) requires ReservedA(w) ensures IsIdentStart(w[0]) && !KeywordShape(w) {}
  lemma ReservedShapeB(w: string) requires ReservedB(w) ensures IsIdentStart(w[0]) && !KeywordShape(w) {}
  lemma ReservedShapeC(w: string) requires ReservedC(w) ensures IsIdentStart(w[0]) && !KeywordShape(w) {}
  lemma ReservedShapeD(w: string) requires ReservedD(w) ensures IsIdentStart(w[0]) && !KeywordShape(w) {}
  lemma ReservedShapeE(w: string) requires ReservedE(w) ensures IsIdentStart(w[0]) && !KeywordShape(w) {}

  /** No reserved word has the shape of a keyword, and each starts with a letter. */
  lemma ReservedHasOtherShape(w: string)
    requires IsReservedWord(w)
    ensures |w| > 0 && IsIdentStart(w[0]) && !KeywordShape(w)
  {
    if ReservedA(w) {
      ReservedShapeA(w);
    } else if ReservedB(w) {
      ReservedShapeB(w);
    } else if ReservedC(w) {
      ReservedShapeC(w);
    } else if ReservedD(w) {
      ReservedShapeD(w);
    } else {
      ReservedShapeE(w);
    }
  }

  /** Keywords and reserved words start with a letter. */
  lemma KeywordsStartWithLetter(w: string)
    ensures IsKeyword(w) || IsReservedWord(w) ==> |w| > 0 && IsIdentStart(w[0])
  {
    if IsKeyword(w) {
      KeywordHasShape(w);
    } else if IsReservedWord(w) {
      ReservedHasOtherShape(w);
    }
  }

  /** No word is both a keyword and a reserved word. */
  lemma KeywordsAreNotReserved(w: string)
    requires IsReservedWord(w)
    ensures !IsKeyword(w)
  {
    ReservedHasOtherShape(w);
    if IsKeyword(w) {
      KeywordHasShape(w);
    }
  }

  /** A keyword is always classified as a keyword. */
  lemma KeywordWins(w: string)
    requires IsKeyword(w)
    ensures Classify(w) == Keywords
  {
    ClassifiedNoLaterThan(w, Keywords);
    ClassifyMatches(w);
    KeywordsStartWithLetter(w);
    OperatorsMiss(w, Classify(w));
  }

  /** A reserved word is always classified as a reserved word. */
  lemma ReservedWordWins(w: string)
    requires IsReservedWord(w)
    ensures Classify(w) == ReservedWords
  {
    ClassifiedNoLaterThan(w, ReservedWords);
    ClassifyMatches(w);
    KeywordsStartWithLetter(w);
    KeywordsAreNotReserved(w);
    OperatorsMiss(w, Classify(w));
  }

  /** Whatever is classified as an identifier is neither a keyword nor a
      reserved word. */
  lemma IdentifierIsNoKeyword(w: string)
    requires Classify(w) == Identifier
    ensures !IsKeyword(w) && !IsReservedWord(w)
  {
    if IsKeyword(w) {
      KeywordWins(w);
    } else if IsReservedWord(w) {
      ReservedWordWins(w);
    }
  }

  /** `=` is an assignment operator, never arithmetic. */
  lemma AssignmentSign()
    ensures Classify("=") == OperatorAssignment
  {
    ClassifiedNoLaterThan("=", OperatorAssignment);
  }

  /** No single character is unknown: `.` catches every one but the newline,
      and the newline is white space. */
  lemma SingleCharacterIsKnown(c: char)
    ensures Classify([c]) != Unknown
  {
    if c == '\n' {
      ClassifiedNoLaterThan([c], WhiteSpace);
    } else {
      ClassifiedNoLaterThan([c], Error);
    }
  }

  /** `VALUE_SIGN` and `NEWLINE` are shadowed by `COLON` and `WHITE_SPACE`:
      no lexeme gets either kind. */
  lemma ShadowedKinds(w: string)
    ensures Classify(w) != ValueSign && Classify(w) != Newline
  {
    ClassifyIsEarliest(w);
    if Is1(w, ':') {
      ClassifiedNoLaterThan(w, Colon);
    } else if Is1(w, '\n') {
      ClassifiedNoLaterThan(w, WhiteSpace);
    }
  }

  /** A run of word characters, `\w+`. */
  predicate AllWordChars(w: string) {
    |w| > 0 && forall p :: 0 <= p < |w| ==> IsWordChar(w[p])
  }

  /** The kind a run of word characters gets, read off the table: a keyword,
      a reserved word, a number, an identifier, or nothing when it starts
      with a digit and goes on with letters. */
  function WordKind(w: string): TokenKind {
    if IsKeyword(w) then Keywords
    else if IsReservedWord(w) then ReservedWords
    else if AllDigits(w) then IntLiteral
    else if |w| > 0 && IsIdentStart(w[0]) then Identifier
    else Unknown
  }

  /** A run of digits is an `INT_LITERAL`. */
  lemma DigitsAreIntLiteral(w: string)
    requires AllDigits(w)
    ensures Classify(w) == IntLiteral
  {
    ClassifiedNoLaterThan(w, IntLiteral);
    ClassifyMatches(w);
    KeywordEntriesMiss(w, Classify(w));
    OperatorsMiss(w, Classify(w));
  }

  /** A word that starts with a letter and is neither a keyword nor a
      reserved word is an `IDENTIFIER`. */
  lemma WordIsIdentifier(w: string)
    requires AllWordChars(w) && IsIdentStart(w[0])
    requires !IsKeyword(w) && !IsReservedWord(w)
    ensures Classify(w) == Identifier
  {
    ClassifiedNoLaterThan(w, Identifier);
    ClassifyMatches(w);
    OperatorsMiss(w, Classify(w));
  }

  /** The word entries match nothing that starts with a digit and is not a
      number. */
  lemma MixedWordMisses(w: string, e: TokenKind)
    requires |w| > 0 && IsDigit(w[0]) && !AllDigits(w)
    ensures 5 <= Rank(e) <= 9 ==> !Matches(e, w)
  {
    KeywordsStartWithLetter(w);
  }

  /** A word that starts with a digit and is not a number matches no entry. */
  lemma WordWithoutKind(w: string)
    requires AllWordChars(w) && !AllDigits(w) && !IsIdentStart(w[0])
    ensures Classify(w) == Unknown
  {
    var p :| 0 <= p < |w| && !IsDigit(w[p]);
    assert p > 0;
    ClassifyIsEarliest(w);
    var r := Classify(w);
    OperatorsMiss(w, r);
    LateKindsMiss(w, r);
    MixedWordMisses(w, r);
  }

  /** Runs of word characters are classified as the table says. */
  lemma WordClassification(w: string)
    requires AllWordChars(w)
    ensures Classify(w) == WordKind(w)
  {
    if IsKeyword(w) {
      KeywordWins(w);
    } else if IsReservedWord(w) {
      ReservedWordWins(w);
    } else if AllDigits(w) {
      DigitsAreIntLiteral(w);
    } else if IsIdentStart(w[0]) {
      WordIsIdentifier(w);
    } else {
      WordWithoutKind(w);
    }
  }

  /** A double-quoted literal is a `STRING_LITERAL`. */
  lemma DoubleQuotedIsString(w: string)
    requires IsQuoted(w, '"')
    ensures Classify(w) == StringLiteral
  {
    ClassifiedNoLaterThan(w, StringLiteral);
    ClassifyMatches(w);
    KeywordEntriesMiss(w, Classify(w));
    OperatorsMiss(w, Classify(w));
  }

  /** The word and literal entries match nothing that starts with `'`. */
  lemma ApostropheMisses(w: string, e: TokenKind)
    requires |w| > 0 && w[0] == '\''
    ensures 5 <= Rank(e) <= 9 ==> !Matches(e, w)
  {
    KeywordsStartWithLetter(w);
  }

  /** A single-quoted literal matches no entry: the table has no character
      literal, so it is `UNKNOWN`. */
  lemma SingleQuotedIsUnknown(w: string)
    requires IsQuoted(w, '\'')
    ensures Classify(w) == Unknown
  {
    ClassifyIsEarliest(w);
    var r := Classify(w);
    OperatorsMiss(w, r);
    LateKindsMiss(w, r);
    ApostropheMisses(w, r);
  }

  /** The kind of a single character that is neither a word character, nor
      white space, nor `#`: the lexemes the catch-all `\S` of the splitter
      produces. */
  function SymbolKind(c: char): TokenKind {
    match c
    case '=' => OperatorAssignment
    case '+' => OperatorArithmetic
    case '-' => OperatorArithmetic
    case '*' => OperatorArithmetic
    case '/' => OperatorArithmetic
    case '%' => OperatorArithmetic
    case '~' => OperatorArithmetic
    case '^' => OperatorArithmetic
    case '!' => OperatorLogic
    case '>' => OperatorRelation
    case '<' => OperatorRelation
    case '\'' => Apostrophe
    case '"' => QuotationSign
    case ',' => Comma
    case ':' => Colon
    case ';' => Semicolon
    case '{' => LBrace
    case '}' => RBrace
    case '(' => LParen
    case ')' => RParen
    case '[' => LBracket
    case ']' => RBracket
    case _ => Error
  }

  /** Single symbols are classified as `SymbolKind` says: `=` is an
      assignment, the other one-character operators keep their kinds, `|` and
      `&` alone are errors, as is every character the table does not name. */
  lemma SymbolClassification(c: char)
    requires !IsWordChar(c) && !IsSpace(c) && c != '#'
    ensures Classify([c]) == SymbolKind(c)
  {
    var w := [c];
    ClassifiedNoLaterThan(w, SymbolKind(c));
    ClassifyMatches(w);
    KeywordEntriesMiss(w, Classify(w));
  }
}
