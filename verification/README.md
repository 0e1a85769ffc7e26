# kaChing lexer and syntax validator, modelled in Dafny

kaChing is a small teaching language for financial scripts. Its front end
is one Python file, `kaChing.py`. This project models the core of that
file and proves properties of the model:

- the ordered token table `TOKEN_TYPES` and the classification of a lexeme
  by the first table entry whose pattern matches all of it (`lexicon.dfy`,
  `classification.dfy`);
- `tokenize_line`, which splits one line into lexemes with one regular
  expression, classifies them and stops at a `#` comment
  (`line_lexer.dfy`);
- `tokenize`, which runs over the lines of the whole input and cuts out
  `/* ... */` comments that may span several lines (`comment_scanner.dfy`);
- `syntax_analyzer`, the per-line validator: one shape checker per kind of
  statement, seven declaration flags, and the message of the first checker
  that answers (`validator.dfy`);
- the per-line driver, which strips each line, validates its code tokens
  in a first pass that stops the program on a crash, and then builds the
  table of lines and messages (`report.dfy`).

`strings.dfy` holds the Python string operations the program relies on
(`find`, slicing, `split`, `join`, `strip`), and `wrappers.dfy` an
`Option` type.

Each module states what the code does as functions. The loops of the
source are methods proved equal to those functions:
`Lexicon.ClassifyLexeme`, `LineLexer.TokenizeLine`,
`CommentScanner.Tokenize`, `Validator.SyntaxAnalyzer` and its cursor loops,
and `Report.Results` with its two passes. The properties are then proved
about the functions.

Modelling choices that shape the model:

- A token is a `Token(kind, lexeme)` value. `TokenKind` is a closed
  datatype with the 28 kinds of the table, `UNKNOWN` and
  `MULTI_LINE_COMMENT`. `Lexicon.Name` gives the name the source uses for
  each kind.
- Each regular expression of the table is a predicate on the whole lexeme
  (`Lexicon.Matches`), since `re.fullmatch` is used. The splitting
  expression is modelled by what it matches at one position
  (`LineLexer.MatchAt`).
- `syntax_analyzer` returns either one of its messages (`Validator.Msg`,
  spelled out by `Validator.Text`) or `Crash`. `Crash` is the `IndexError`
  the `if` checker raises when it reads past the end of the line. The
  seven boolean flags are a set of the declared types.
- Every checker starts its cursor at `tokens.index(token) + 1`, which is
  one past the first token EQUAL to the current one (`Validator.After`).
  This is how the source behaves, not one past the current position.
- `tokenize` is modelled as written. The list it builds holds tuples,
  whole lists of tuples and `None` (see Findings).

## Behaviour of the code worth knowing

The model follows the code in each of these cases.

- The `if`/`elif` checker indexes past the end of the line
  (kaChing.py:367, 371, 373) when the line ends right after `(`, after the
  relational operator, or after the second operand. Python then raises
  `IndexError`, which ends the program in the driver's first pass, so
  `if (` alone on a line stops the run. The model has this as `Crash`
  (`Validator.ConditionalOutcomes`, `Validator.OpenConditionCrashes`,
  `Report.ErrorPass`).
- The `bool` and `char` declarations compare the value's kind with
  `'true'` and `'false'`, and with `'CHAR_LITERAL'` (kaChing.py:154, 160).
  No kind has those names, so `bool b = true` and any `char` with a value
  report a missing literal (`Validator.CharAndBoolNeverAssigned`).
- Each checker starts from `tokens.index(token) + 1`
  (kaChing.py:144 and the like), that is, one past the first EQUAL token.
  A repeated token is therefore checked from its first occurrence, not
  from where the scan is (`Validator.RepeatedTokenChecksFirst`).
- The splitting expression of kaChing.py:57 cuts `<%`, `%>`, `++` and
  `--` into single characters. No code token is ever a data-binding
  marker or a unary operator (`LineLexer.CodeKindsNever`), so on the
  driver's input the data-binding checker and the comment handling of the
  validator never run.
- A token is a `(kind, lexeme)` pair and carries no line number.
- The interior of a multi-line comment becomes one comment token, but the
  pieces of code around the comment enter the list as nested lists and
  `None` (see Findings).

## Model

| member | source | states |
|---|---|---|
| Strings.Find | kaChing.py:79-91 | `find` returns -1 exactly when the pattern does not occur from the start index on, and otherwise the least index at which it occurs |
| Strings.Slice | kaChing.py:94 | a Python slice with non-negative bounds: the sub-sequence when the bounds are in order, empty when they cross, and never longer than the text |
| Strings.Split | kaChing.py:76 | `split('\n')` gives at least one piece, and no piece holds the separator |
| Strings.JoinSplit | kaChing.py:76 | joining the pieces of a split with the separator gives the text back |
| Strings.SplitJoin | kaChing.py:525 | splitting the join of separator-free pieces gives the pieces back |
| Strings.Strip | kaChing.py:529 | `strip()` never lengthens a line |
| Strings.StripSpec | kaChing.py:529 | a line strips to empty exactly when it is all whitespace; a non-empty strip neither starts nor ends with whitespace and is a contiguous piece of the line |
| Strings.StripKeeps | kaChing.py:539 | a line that neither starts nor ends with whitespace strips to itself |
| Strings.StripIdempotent | kaChing.py:529 | stripping twice is stripping once |
| Lexicon.EntryRanks | kaChing.py:13-49 | each table position holds the kind whose rank is that position, so the table lists each kind once |
| Lexicon.QuotedEnd | kaChing.py:29 | the end of a quoted literal, when found, lies after its start and holds the closing quote |
| Lexicon.FirstTrueIsEarliest | kaChing.py:64-67 | the search stops at the first matching entry and passes only entries that do not match |
| Lexicon.ClassifyIsEarliest | kaChing.py:64-69 | a lexeme gets the earliest table entry whose pattern matches all of it, and `UNKNOWN` exactly when no entry matches |
| Lexicon.ClassifyLexeme | kaChing.py:64-69 | the `for ... else` loop over the table computes `Classify` |
| Classification.InTable | kaChing.py:13-49 | every kind except `UNKNOWN` and `MULTI_LINE_COMMENT` sits in the table at its rank |
| Classification.ClassifyMatches | kaChing.py:64-67 | a kind other than `UNKNOWN` is only given to a lexeme its pattern matches |
| Classification.NoneMatch | kaChing.py:68-69 | a lexeme that no pattern matches is `UNKNOWN` |
| Classification.NeverKind | kaChing.py:64-67 | a kind whose pattern does not match is never given |
| Classification.ClassifiedNoLaterThan | kaChing.py:64-67 | a matching entry bounds the rank of the kind given |
| Classification.KeywordEntriesMiss | kaChing.py:19-27 | the keyword and reserved-word patterns match nothing that does not start with a letter or `_` |
| Classification.OperatorsStartWithSymbol | kaChing.py:5-9 | every operator pattern matches only lexemes that start with an operator character |
| Classification.OperatorsMiss | kaChing.py:14-18 | the five operator entries match nothing that starts with another character |
| Classification.LateKindsMiss | kaChing.py:31-48 | the entries from `SINGLE_LINE_COMMENT` on match no lexeme of two or more characters unless it starts with `#`, whitespace, `<` or `%` |
| Classification.KeywordHasShape | kaChing.py:19-22 | every keyword has the length and first and last character of a keyword |
| Classification.ReservedHasOtherShape | kaChing.py:23-27 | every reserved word starts with a letter and has no keyword shape |
| Classification.KeywordsStartWithLetter | kaChing.py:19-27 | keywords and reserved words start with a letter |
| Classification.KeywordsAreNotReserved | kaChing.py:19-27 | no word is both a keyword and a reserved word |
| Classification.KeywordWins | kaChing.py:19-22 | a keyword is always classified `KEYWORDS`, despite the operator entries before it |
| Classification.ReservedWordWins | kaChing.py:23-27 | a reserved word is always classified `RESERVEDWORDS` |
| Classification.IdentifierIsNoKeyword | kaChing.py:19-30 | a lexeme classified `IDENTIFIER` is neither a keyword nor a reserved word |
| Classification.AssignmentSign | kaChing.py:14-16 | `=` is classified `OPERATOR_ASSIGNMENT`, never arithmetic |
| Classification.SingleCharacterIsKnown | kaChing.py:48 | no single character is `UNKNOWN` |
| Classification.ShadowedKinds | kaChing.py:35-47 | no lexeme is ever `VALUE_SIGN` or `NEWLINE`: `COLON` and `WHITE_SPACE` come first |
| Classification.DigitsAreIntLiteral | kaChing.py:28 | a run of digits is an `INT_LITERAL` |
| Classification.WordIsIdentifier | kaChing.py:30 | a word that starts with a letter or `_` and is neither a keyword nor a reserved word is an `IDENTIFIER` |
| Classification.MixedWordMisses | kaChing.py:19-30 | the word entries match nothing that starts with a digit and is not a number |
| Classification.WordWithoutKind | kaChing.py:28-30 | a word that starts with a digit and is not a number is `UNKNOWN` |
| Classification.WordClassification | kaChing.py:19-30 | every run of word characters gets the kind `WordKind` reads off the table |
| Classification.DoubleQuotedIsString | kaChing.py:29 | a double-quoted literal is a `STRING_LITERAL` |
| Classification.ApostropheMisses | kaChing.py:19-30 | the word and literal entries match nothing that starts with `'` |
| Classification.SingleQuotedIsUnknown | kaChing.py:32 | a single-quoted literal matches no entry, because the table has no character literal |
| Classification.SymbolClassification | kaChing.py:34-48 | every single symbol gets the kind `SymbolKind` gives it |
| LineLexer.WordEnd | kaChing.py:57 | `\b\w+\b` ends at the first character that is not a word character |
| LineLexer.LineEnd | kaChing.py:57 | `#.*` ends at the first line break |
| LineLexer.MatchAt | kaChing.py:57 | the splitting alternation yields a comment exactly at `#`, nothing exactly at whitespace, and otherwise a non-empty lexeme |
| LineLexer.Spans | kaChing.py:56-58 | every lexeme occupies a non-empty range inside the line |
| LineLexer.CommentStart | kaChing.py:60-62 | the comment that stops the scan starts at a `#` |
| LineLexer.CodeLimit | kaChing.py:60-62 | the code part of a line ends at the comment or at the end |
| LineLexer.StepComment | kaChing.py:60-62 | at a `#` the scan ends with the comment token running to the line break |
| LineLexer.StepSpace | kaChing.py:56-58 | whitespace is passed over |
| LineLexer.StepLexeme | kaChing.py:56-66 | a lexeme gives one token and one span, and the scan resumes after it |
| LineLexer.TokensFollowSpans | kaChing.py:56-67 | the code tokens are the texts of the spans in order, each with the kind the table gives it |
| LineLexer.SameCount | kaChing.py:56-58 | there are as many lexemes as spans |
| LineLexer.LexemeAt | kaChing.py:56-59 | the lexeme at each position is the text of the span at that position |
| LineLexer.CommentFollowsSpans | kaChing.py:60-62 | the comment token is the text from the first `#` outside a lexeme to the line break |
| LineLexer.SuffixFrom | kaChing.py:56-58 | the scan from a span's start goes on exactly as the scan that met it |
| LineLexer.SpanStep | kaChing.py:56-58 | what comes after each span is the scan from its end |
| LineLexer.SpansAreMatches | kaChing.py:56-58 | each span is exactly what the alternation matches where it starts |
| LineLexer.SpansInOrder | kaChing.py:56-58 | the lexemes come left to right and never overlap |
| LineLexer.SpansBeforeComment | kaChing.py:60-62 | no lexeme is taken from after the comment |
| LineLexer.NothingSkipped | kaChing.py:56-62 | every non-space character before the comment lies in some lexeme |
| LineLexer.CoveredOnce | kaChing.py:56-58 | a character lies in at most one lexeme |
| LineLexer.TokenizeLine | kaChing.py:52-70 | the loop returns the classified lexemes and the comment token |
| LineLexer.QuotedSlice | kaChing.py:57 | a quoted literal found in a line is a quoted literal on its own |
| LineLexer.MatchShape | kaChing.py:57 | at a position the scan reaches, a lexeme is a whole word run, a quoted literal or one non-space character |
| LineLexer.StartAt | kaChing.py:56-58 | no span starts in the middle of a word run |
| LineLexer.ShapeAt | kaChing.py:56-58 | every span has one of the three shapes |
| LineLexer.ShapeClassification | kaChing.py:57-69 | a lexeme of one of the three shapes gets the kind its shape says |
| LineLexer.CodeKindAt | kaChing.py:56-69 | the code token at each position has the kind its shape says and does not start with whitespace |
| LineLexer.CodeKinds | kaChing.py:56-69 | every code token of a line has the kind its shape says |
| LineLexer.WordKindRange | kaChing.py:19-30 | a word run is a keyword, a reserved word, an integer literal, an identifier or `UNKNOWN` |
| LineLexer.ShapeKindNever | kaChing.py:15-47 | no shape gives the two-character operators, the binding delimiters, comments, whitespace, `VALUE_SIGN` or `NEWLINE` |
| LineLexer.CodeKindsNever | kaChing.py:56-69 | no code token has any of those kinds |
| LineLexer.EqualityIsTwoAssignments | kaChing.py:57 | `a==b` splits into `a`, `=`, `=`, `b`, and both `=` are assignment operators |
| LineLexer.CommentExample | kaChing.py:60-62 | in `x #a=1` the comment is `#a=1` and the only lexeme is `x` |
| CommentScanner.ItemsFlatten | kaChing.py:101-102 | extending with the code tokens adds exactly those tokens, in order, each as a tuple |
| CommentScanner.PairKept | kaChing.py:93-105 | of an extended pair the filter keeps the code-token list unless it is empty and the comment token unless it is `None`, and the tuples in the pair are the code tokens followed by the comment |
| CommentScanner.KeepTruthy | kaChing.py:105 | the filter keeps exactly the elements that are neither `None` nor empty lists, and loses no tuple |
| CommentScanner.KeepIdempotent | kaChing.py:105 | filtering twice is filtering once |
| CommentScanner.KeepAppend | kaChing.py:105 | the filter works element by element |
| CommentScanner.FlattenAppend | kaChing.py:105 | the tuples of a concatenation are the tuples of each part |
| CommentScanner.FreshAppends | kaChing.py:89-102 | meeting a line outside a comment only appends to the list |
| CommentScanner.StepAppends | kaChing.py:77-102 | each turn of the loop only appends to the list |
| CommentScanner.CloseComment | kaChing.py:78-85 | `*/` inside a comment emits the comment and meets the rest of the line afresh |
| CommentScanner.RunFromAppend | kaChing.py:77 | running over two stretches of lines is running over one, then the other |
| CommentScanner.RunLast | kaChing.py:77 | the last line is one more turn of the loop |
| CommentScanner.ClosedMeansEmptyFrom | kaChing.py:83-84 | outside a comment the comment buffer is empty |
| CommentScanner.StayOpen | kaChing.py:86-88 | a line without `*/` inside a comment only adds itself and a line break to the buffer |
| CommentScanner.InsideComment | kaChing.py:78-88 | lines inside an open comment add nothing to the list |
| CommentScanner.OpenComment | kaChing.py:96-99 | a `/*` without a later `*/` adds the prefix's pair and opens a comment holding the rest of the line |
| CommentScanner.CommentSpan | kaChing.py:78-99 | a comment over several lines gives exactly one `MULTI_LINE_COMMENT` holding all its text with the line breaks, and what follows `*/` is met afresh |
| CommentScanner.CommentLeftOpen | kaChing.py:96-99 | a comment still open at the end emits nothing |
| CommentScanner.SameLineComment | kaChing.py:91-95 | `/*` with a later `*/` on the same line gives the prefix's pair, the comment and the suffix's pair, and leaves no comment open |
| CommentScanner.PlainLine | kaChing.py:100-102 | a line without `/*` adds only its code tokens, none of them a comment |
| CommentScanner.SharedStar | kaChing.py:89-95 | in `/*/` the `*/` search finds the shared star, so the line is an empty comment |
| CommentScanner.RunFlatStaysFlat | kaChing.py:93-97 | the corrected loop only ever appends tuples |
| CommentScanner.TokenizeFlatIsFlat | kaChing.py:72-107 | the corrected `tokenize` returns a flat list of tuples |
| CommentScanner.FlatAgreesWithoutComments | kaChing.py:100-102 | on lines without `/*` the correction changes nothing |
| CommentScanner.EmptyCommentLine | kaChing.py:89-95 | on `x/**/` the written loop adds two pairs around the empty comment, and the corrected one adds the code tokens |
| CommentScanner.PiecesOfEmptyCommentLine | kaChing.py:52-70 | `x` gives one code token and no comment, and the empty piece gives neither |
| CommentScanner.NestedListExample | kaChing.py:93-105 | on `x/**/` the written `tokenize` returns a nested list where the corrected one has the tuple |
| CommentScanner.MeetLine | kaChing.py:89-102 | the branches on `/*` compute `Fresh` |
| CommentScanner.Tokenize | kaChing.py:72-107 | the loop over the lines, with its comment buffer and flag, returns the filtered list of `Run` |
| Validator.TypeWords | kaChing.py:143 | the seven declaration keywords and the seven types correspond one to one |
| Validator.FirstIndex | kaChing.py:144 | `tokens.index` finds the first token equal to the given one |
| Validator.After | kaChing.py:144 | the cursor starts one past that first equal token, never after the current one |
| Validator.AfterCurrent | kaChing.py:144 | the cursor starts right after the current token exactly when no earlier token equals it |
| Validator.KindsUpTo | kaChing.py:403 | the kinds of the first `n` tokens |
| Validator.Kinds | kaChing.py:403 | one kind per token |
| Validator.KindAt | kaChing.py:403 | each entry is the kind of the token at that position |
| Validator.Seek | kaChing.py:403-404 | the cursor loop stops at a token of the sought kind or at the end |
| Validator.SeekFirst | kaChing.py:403-404 | the cursor loop stops at the first token of the sought kind |
| Validator.SeekFinds | kaChing.py:403-405 | the cursor finds a kind exactly when one follows |
| Validator.SeekFinds2 | kaChing.py:403-410 | stopping at the first `a` never loses a `b` that follows some `a` |
| Validator.SeekFinds3 | kaChing.py:403-415 | stopping at the first `a` never loses a `b` and then a `c` that follow some `a` |
| Validator.SkipTo | kaChing.py:403-404 | the `while` loop computes `Seek` |
| Validator.ForLoopAt | kaChing.py:398-424 | the `for` checker with its three cursor loops computes `ForLoop` |
| Validator.WhileLoopAt | kaChing.py:427-439 | the `while` checker computes `WhileLoop` |
| Validator.DataBindingAt | kaChing.py:442-450 | the data binding checker computes `DataBinding` |
| Validator.ReservedCallAt | kaChing.py:453-465 | the reserved word checker computes `ReservedCall` |
| Validator.CheckToken | kaChing.py:142-482 | the chain of checkers for one token computes `Check` |
| Validator.SyntaxAnalyzer | kaChing.py:110-500 | the loop over the tokens, with the comment flag and the declaration flags, computes `Analyze` |
| Validator.Dispatch | kaChing.py:142-482 | each token triggers the checker of its statement, and every other token triggers none |
| Validator.KindNames | kaChing.py:154-160 | no kind is named `CHAR_LITERAL`, `true` or `false`, the names the `char` and `bool` tests compare with, nor `{`, which the `else` test of kaChing.py:388 compares with |
| Validator.LiteralKinds | kaChing.py:148-165 | only an integer literal suits `int`, `float`, `double` and `long`, only a string literal suits `string`, and nothing suits `char` or `bool` |
| Validator.DeclarationRaisesFlag | kaChing.py:143-202 | a typed keyword raises its flag exactly when an identifier follows and then the end, `;`, or `=` and a fitting literal; otherwise it answers with a message |
| Validator.DeclarationErrors | kaChing.py:143-202 | the missing identifier, the missing `=` and the wrong literal are reported with the keyword they quote |
| Validator.CharAndBoolNeverAssigned | kaChing.py:154-165 | a `char` or `bool` declaration with a value always reports a missing literal |
| Validator.ConditionalOutcomes | kaChing.py:363-382 | `if`/`elif` is valid exactly on `( operand relop operand )`, lets the scan go on when `(` or the first operand is missing, and crashes exactly where it reads past the end |
| Validator.ConditionalErrors | kaChing.py:369-382 | the missing relational operator, the missing second operand and the missing `)` are reported in this order |
| Validator.OpenConditionCrashes | kaChing.py:365-367 | `if (` at the end of a line raises `IndexError` |
| Validator.ElseOutcomes | kaChing.py:385-395 | `else` is incomplete at the end of a line, lets the scan go on before `if`, and is valid before anything else, `{` included |
| Validator.ForClausesOrder | kaChing.py:403-422 | after `(` the `for` checker reports the first of `;`, `;`, `)` that is missing, and is valid exactly when all three follow in order |
| Validator.ForLoopOrder | kaChing.py:398-424 | the `for` checker reports a missing `(` first, then the clauses in the order above |
| Validator.WhileLoopOrder | kaChing.py:427-439 | `while` reports a missing `(` before a missing `)`, and is valid exactly when `(` is followed somewhere by `)` |
| Validator.ReservedCallOrder | kaChing.py:453-465 | a reserved word reports a missing `(` before a missing `)`, quoting itself, and is valid exactly when `(` is followed somewhere by `)` |
| Validator.DataBindingOutcomes | kaChing.py:442-450 | a data binding is valid exactly when a closing delimiter follows, and reports the missing delimiter otherwise |
| Validator.PrintCallOutcomes | kaChing.py:468-482 | `print` is valid exactly on `( literal-or-identifier )`, and reports a missing `(`, then a missing argument, then a missing `)` |
| Validator.StepsUpTo | kaChing.py:124-482 | one step per token |
| Validator.Steps | kaChing.py:124-482 | one step per token of the line |
| Validator.StepAt | kaChing.py:124-482 | each step records whether its token opens or closes a comment and what its checker does |
| Validator.AnalyzeWalks | kaChing.py:124-482 | running every checker first and then scanning gives the same verdict as the loop |
| Validator.DeclaredSplit | kaChing.py:143-202 | the flags raised in a range are those of its first token and those of the rest |
| Validator.WalkSummary | kaChing.py:124-500 | when no checked token answers, the result is the summary of the flags raised |
| Validator.WalkAnswer | kaChing.py:124-482 | the first checked token whose checker answers decides the result |
| Validator.InsideStays | kaChing.py:127-137 | once a comment is opened, the scan stays inside it until a token that closes it |
| Validator.CommentSkipped | kaChing.py:127-140 | a comment opened and later closed hides every token from the opener to the closer |
| Validator.NoOpenerAllChecked | kaChing.py:135-140 | without a comment opener every token reaches the checkers |
| Validator.AnalyzeAnswer | kaChing.py:124-482 | `syntax_analyzer` returns the message of the first checked token whose checker answers |
| Validator.AnalyzeSummary | kaChing.py:484-500 | when no checked token answers, `syntax_analyzer` returns the summary of the flags raised |
| Validator.SummaryFirstFlag | kaChing.py:485-500 | the summary is `Invalid Syntax` exactly when no flag is raised, and otherwise names the earliest raised flag in the order `int`, `string`, `char`, `float`, `double`, `bool`, `long` |
| Validator.RepeatedTokenChecksFirst | kaChing.py:143-151 | in `int x ; int = 5` the second `int` is checked from the first one's position and raises its flag |
| Validator.SelfClosingCommentHidesNext | kaChing.py:127-137 | a comment token that both opens and closes leaves the scan inside a comment, so the next token is skipped |
| Report.Stripped | kaChing.py:529 | one stripped line per line |
| Report.RowsAppend | kaChing.py:538-544 | the rows of a concatenation are the rows of each part |
| Report.RowsSingle | kaChing.py:538-544 | a single line gives a row exactly when it is not blank |
| Report.RowsPrefix | kaChing.py:538-544 | one more line adds its row, if any, at the end |
| Report.CrashSpreads | kaChing.py:528-535 | a crash on any line makes the whole report crash |
| Report.RowsShape | kaChing.py:538-544 | every row holds a non-blank line and the verdict on it, and without blank lines there is one row per line |
| Report.StrippedLines | kaChing.py:529 | the lines are stripped one by one, and stripping them again changes nothing |
| Report.ReportOfLines | kaChing.py:525 | the report of separator-free lines joined with line breaks is the report of those lines |
| Report.LineAllChecked | kaChing.py:532-533 | a line's code tokens never reach the comment handling of the validator |
| Report.LineAnswer | kaChing.py:532-533 | on a line, the first token whose checker answers decides the verdict |
| Report.LineSummary | kaChing.py:532-533 | on a line where no checker answers, the verdict is the summary of the flags, and a line without code is `Invalid Syntax` |
| Report.CommentLineVerdict | kaChing.py:532-533 | a line holding only a comment is `Invalid Syntax` |
| Report.CommentAndBlankLines | kaChing.py:525-530 | `# note`, a line break and two spaces is a comment line and a blank line |
| Report.CommentLineIsInvalid | kaChing.py:523-544 | that input gives one row, the comment line marked `Invalid Syntax` |
| Report.LineResult | kaChing.py:532-533 | validating one line's code tokens computes `LineVerdict` |
| Report.ErrorPass | kaChing.py:528-535 | the first pass stops the program exactly when some non-blank line crashes |
| Report.TablePass | kaChing.py:538-544 | the second pass builds one row per non-blank line, in order |
| Report.Results | kaChing.py:523-544 | the two passes compute `Report` |

## Left out

- Strings.Strip: its own `ensures` only bounds the length. The full
  statement of `strip()` is the lemma `Strings.StripSpec`, kept apart so
  that the report proofs do not unfold it.
- The web endpoint (kaChing.py:551 on) and reading `input.kc`
  (kaChing.py:509-515) are I/O. The model takes the input text as a
  parameter.
- Printing is left out: the token table and the results table
  (`tabulate`, kaChing.py:503-507, 520, 547), and the error lines of the
  first pass (kaChing.py:534-535). For that reason the `split('Syntax
  Error: ')[1]` of that print is not modelled. Every message that contains
  `Error` contains `Syntax Error: `, so it never raises.
- Regular expressions are not interpreted. Each pattern of the table is
  written out as a predicate. `\s`, `\w` and `\d` are restricted to ASCII,
  where Python's are Unicode-aware. The same ASCII whitespace
  (`Strings.IsSpace`) drives `Strings.Strip`, so the model's `str.strip()`
  keeps characters Python strips, such as `\u00a0` and `\x85`.
- In the splitting expression of kaChing.py:57, every alternative after
  `\S` (`print\s*\(.*?\)\s*`, the operator groups and the parentheses) can
  only match where `\S` already matches one character. None of them can
  win, so they are not modelled.
- The checkers for `TOKEN_KSUB`, `TOKEN_KADD`, `TOKEN_KTOTAL`,
  `TOKEN_BANKSYSTEM` and `TOKEN_BACCOUNT` (kaChing.py:204-360) are not
  modelled. No entry of the table produces those kinds, so their
  conditions never hold.
- The messages are the `Validator.Msg` datatype; `Validator.Text` spells
  out the source's strings. The seven boolean flags are a set of types.
- Validator.SyntaxAnalyzer: the comment handling of kaChing.py:127-140 is
  modelled, but on the driver's input it is dead code. Code tokens are
  never `MULTI_LINE_COMMENT` (`Report.LineAllChecked`), so every token
  reaches the checkers.
- CommentScanner.Tokenize: the result keeps the nested lists the source
  builds. `CommentScanner.Flatten` reads the tuples in order, and
  `CommentScanner.TokenizeFlat` is the corrected list (see Findings).
- The driver's `tokens = tokenize(input_string)` (kaChing.py:517) only
  feeds the printed token table. It is modelled by `CommentScanner.Tokenize`,
  but `Report.Report` does not depend on it.

## Findings

| source | as written | input that shows it | evidently intended | confidence | as-written member | corrected member |
|---|---|---|---|---|---|---|
| kaChing.py:93-97 | `tokens.extend(tokenize_line(...))` extends the list with the pair `(code_tokens, comment_token)`. The list gets the list of code tokens as ONE element, and the comment token or `None` as another. | `x/**/`: the result holds the list `[('IDENTIFIER', 'x')]` where a tuple is expected | extend with the code tokens, as the plain-line branch of kaChing.py:101-102 does, giving a flat list of tuples | not executed | CommentScanner.NestedListExample | CommentScanner.TokenizeFlatIsFlat |
