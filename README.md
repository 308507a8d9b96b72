# A verified model of the Pascal plugin's parser and identifier resolver

This project models two parts of an IntelliJ language plugin for Pascal:

- **The parser.** `InnerParser` is a recursive-descent parser that builds the
  program tree through IntelliJ's `PsiBuilder`.
- **The resolver.** `PascalRefIdentifier` resolves an identifier to the
  variable, function or procedure declaration with the same text.

## The parser

`PsiBuilderModel.Builder` models the part of `PsiBuilder` the parser uses:

- the token list, with whitespace and comments already removed;
- a cursor with one token of look-ahead;
- the children built so far for the innermost open marker;
- the markers, with `mark`, `done`, `drop`, `error` and `advanceLexer`.

`PascalParser.InnerParser` is a class over such a builder. It has one method
per method of the source, with the same dispatch, the same error messages and
the same token sets. Each parse method is proved against the grammar in
`PascalGrammar`, with one predicate per element type. A parse method's
`ensures` says two things:

- the open marker gained the element or elements named in its result, and
  nothing else;
- each of them has the shape its predicate gives.

Every grammar predicate takes, besides the element, `next`: the kind of the
token that follows the element, or None at the end of the input. `First`
gives the kind of an element's first token, and `Lead(xs, next)` the kind of
the token at which a run of elements starts (`next` when the run is empty).
With these, the grammar states the decisions the parser takes on the current
token:

- an optional part is present exactly when its first token is current;
- a loop over a separator goes on exactly while the separator follows;
- an error alternative is taken only when none of the tokens the code tests
  for is current.

A parse method's `ensures` ties `next` to the token current when it returns,
and `Lead` of what it added to the token current when it was called.

Shapes are compared over `Shape`, the tree with skipped bad characters left
out. The builder's invariant `Consistent` keeps the built children exactly
covering the consumed tokens. So `PascalParser.Parse` proves two things for
every token sequence:

- the tree is a FILE of the grammar;
- its leaves are exactly a prefix of the input.

The grammar follows the code rather than the grammar comment at the top of
`PascalParser.kt`:

- Each expression tier takes at most one operator. `parseSimpleExpression`
  calls `parseTerm` a second time, not itself, so `a + b + c` stops after `b`.
  The same holds for `parseExpression` and `parseTerm`.
- A parenthesised factor closes with `expectAdvance(LPAREN, ")")`. So a ")"
  never closes it; the lemma `PascalGrammar.ParenthesisedFactorClose` states
  this.
- A simple statement is an assignment exactly when the token after the
  current one is in `ASSIGNMENTS`. That set includes the relational operators.
  `parseAssignment` itself accepts only the five assignment operators.

## The resolver

The resolver works on the same `Tree` type. A node is named by its path from
the root, and its parent is the path without its last index. It follows the
same steps as `PascalRefIdentifier`:

- `findFileNode` climbs to the root;
- `findDeclarations` takes the DECLARATION_PART of the root's first BLOCK;
- `lookInDeclaredEntities` and `lookInDeclaredVars` scan in order.

Each of the two loops is a method proved equal to a recursive function. Each
function states, in its own `ensures`, soundness, first-match and the
"nothing found" case.

The parser puts the name of a variable, function or procedure declaration in
as a bare IDENTIFIER token, never as an IDENTIFIER element. The resolver looks
for IDENTIFIER elements. `PascalParsedReferences.ParsedFileResolvesNothing`
proves the consequence: on any tree the parser builds, no identifier resolves.

## Model

| member | source | states |
|---|---|---|
| PascalParser.Parse | src/main/kotlin/com/itmo/pascal/lang/PascalParser.kt:219-222 | For every token sequence, the built root is a FILE of the grammar followed by the token left current, it starts at the first input token, and its leaves are exactly the first `consumed` input tokens, in order |
| PascalParser.InnerParser.ParseFile | src/main/kotlin/com/itmo/pascal/lang/PascalParser.kt:225-239 | Adds one FILE element: header, ";" (or its error), an optional uses clause, a block, "." (or its error); on an empty builder it is the single root node |
| PascalParser.InnerParser.ParseProgramHeader | src/main/kotlin/com/itmo/pascal/lang/PascalParser.kt:241-251 | Adds one PROGRAM_HEADER: PROGRAM token or error, an IDENTIFIER element, optional program parameters |
| PascalParser.InnerParser.ParseIdentifier | src/main/kotlin/com/itmo/pascal/lang/PascalParser.kt:254-258 | Adds one IDENTIFIER element. It holds the current token and consumes it when that token is an IDENTIFIER; otherwise it holds the empty error "Expected IDENTIFIER" and the cursor stays put |
| PascalParser.InnerParser.ParseProgramParameters | src/main/kotlin/com/itmo/pascal/lang/PascalParser.kt:261-271 | Adds one PROGRAM_PARAMETERS element: "(" or its error, optionally IDENTIFIER elements separated by commas, then ")" or its error |
| PascalParser.InnerParser.ParseIdentifierList | src/main/kotlin/com/itmo/pascal/lang/PascalParser.kt:273-279 | Adds IDENTIFIER elements separated by comma tokens and stops at a token that is not a comma |
| PascalParser.InnerParser.ParseUsesClause | src/main/kotlin/com/itmo/pascal/lang/PascalParser.kt:281-289 | Adds one USES_CLAUSE: USES, clauses separated by commas, ";" |
| PascalParser.InnerParser.ParseClauseList | src/main/kotlin/com/itmo/pascal/lang/PascalParser.kt:291-297 | Adds CLAUSE elements separated by comma tokens and stops at a token that is not a comma |
| PascalParser.InnerParser.ParseClause | src/main/kotlin/com/itmo/pascal/lang/PascalParser.kt:299-309 | Adds one CLAUSE: an identifier token or its error, then optionally IN and a STRING (or its error) |
| PascalParser.InnerParser.ParseBlock | src/main/kotlin/com/itmo/pascal/lang/PascalParser.kt:311-318 | Adds one BLOCK: an optional declaration part, then a statement part |
| PascalParser.InnerParser.ParseDeclarationPart | src/main/kotlin/com/itmo/pascal/lang/PascalParser.kt:320-341 | Adds a DECLARATION_PART of one or more declarations exactly when the input neither ended nor stood at BEGIN; otherwise adds nothing and consumes nothing; it ends at BEGIN or at the end of the input (corrected loop, see Findings) |
| PascalParser.InnerParser.DeclarationPassAtEnd | src/main/kotlin/com/itmo/pascal/lang/PascalParser.kt:324-333 | As written, a pass of the declaration loop at the end of the input adds the error "Expected LABEL, VAR, FUNCTION, PROCEDURE", consumes nothing and leaves the loop condition true |
| PascalParser.InnerParser.ParseDeclaration | src/main/kotlin/com/itmo/pascal/lang/PascalParser.kt:327-332 | One pass of the declaration loop adds one declaration (label, variable, function or procedure part, or the skipped token in an error) and always consumes a token |
| PascalParser.InnerParser.ParseFunctionDeclaration | src/main/kotlin/com/itmo/pascal/lang/PascalParser.kt:343-352 | Adds one FUNCTION_DECLARATION: FUNCTION, an identifier token, ";", a block; it consumes input when FUNCTION is current |
| PascalParser.InnerParser.ParseProcedureDeclaration | src/main/kotlin/com/itmo/pascal/lang/PascalParser.kt:354-363 | Adds one PROCEDURE_DECLARATION: PROCEDURE, an identifier token, ";", a block; it consumes input when PROCEDURE is current |
| PascalParser.InnerParser.ParseLabelDeclarationPart | src/main/kotlin/com/itmo/pascal/lang/PascalParser.kt:365-374 | Adds one LABEL_DECLARATION_PART: LABEL, labels separated by commas, ";" |
| PascalParser.InnerParser.ParseLabelDeclarationList | src/main/kotlin/com/itmo/pascal/lang/PascalParser.kt:376-382 | Adds LABEL elements separated by comma tokens and stops at a token that is not a comma |
| PascalParser.InnerParser.ParseVariableDeclarationPart | src/main/kotlin/com/itmo/pascal/lang/PascalParser.kt:384-391 | Adds one VARIABLE_DECLARATION_PART: VAR followed by one or more variable declarations |
| PascalParser.InnerParser.ParseVariableDeclarationList | src/main/kotlin/com/itmo/pascal/lang/PascalParser.kt:393-398 | Adds one or more VARIABLE_DECLARATION elements and stops at a token that is not an identifier |
| PascalParser.InnerParser.ParseVariableDeclaration | src/main/kotlin/com/itmo/pascal/lang/PascalParser.kt:400-420 | Adds one VARIABLE_DECLARATION: identifier token, ":", a type, an optional "=" expression, ";" |
| PascalParser.InnerParser.ParseVariableType | src/main/kotlin/com/itmo/pascal/lang/PascalParser.kt:405-411 | Takes the current type token when it is INTEGER, REAL, BOOLEAN or CHAR; otherwise skips it into the error "Expected INTEGER, REAL, BOOLEAN, CHAR" |
| PascalParser.InnerParser.ParseVariableInitializer | src/main/kotlin/com/itmo/pascal/lang/PascalParser.kt:412-415 | Adds "=" and an expression exactly when "=" is current, and nothing otherwise |
| PascalParser.InnerParser.ParseExpression | src/main/kotlin/com/itmo/pascal/lang/PascalParser.kt:422-432 | Adds one EXPRESSION: a simple expression, optionally one relational operator and one more simple expression; it consumes input unless the input has ended; after a lone operand no relational operator is current |
| PascalParser.InnerParser.ParseSimpleExpressionOperator | src/main/kotlin/com/itmo/pascal/lang/PascalParser.kt:434-463 | Adds one SIMPLE_EXPRESSION_OPERATOR. At a relational operator it wraps that token and consumes it; otherwise it wraps the error "Expected SIMPLE_EXPRESSION_OPERATOR" around the skipped token |
| PascalParser.InnerParser.ParseRelationalOperator | src/main/kotlin/com/itmo/pascal/lang/PascalParser.kt:437-460 | At one of "=", "<>", "<", "<=", ">", ">=" or IN, adds that token and consumes it; otherwise skips the current token into the error "Expected SIMPLE_EXPRESSION_OPERATOR", the current token being none of those |
| PascalParser.InnerParser.ParseSimpleExpression | src/main/kotlin/com/itmo/pascal/lang/PascalParser.kt:465-475 | Adds one SIMPLE_EXPRESSION: a term, optionally one additive operator and one more term |
| PascalParser.InnerParser.ParseTermOperator | src/main/kotlin/com/itmo/pascal/lang/PascalParser.kt:477-496 | At an additive operator, adds a TERM_OPERATOR wrapping that token; otherwise adds an empty TERM_OPERATOR and consumes nothing |
| PascalParser.InnerParser.ParseTerm | src/main/kotlin/com/itmo/pascal/lang/PascalParser.kt:498-508 | Adds one TERM: a factor, optionally one multiplicative operator and one more factor |
| PascalParser.InnerParser.ParseFactorOperator | src/main/kotlin/com/itmo/pascal/lang/PascalParser.kt:510-532 | At a multiplicative operator, adds a FACTOR_OPERATOR wrapping that token; otherwise adds an empty FACTOR_OPERATOR and consumes nothing |
| PascalParser.InnerParser.ParseFactor | src/main/kotlin/com/itmo/pascal/lang/PascalParser.kt:534-568 | Adds one FACTOR, one of: identifier with optional arguments; NOT, "+" or "-" with a factor; an unsigned integer; "(" expression closed as written; an unsigned constant. The alternative is the one the current token selects, and it consumes input unless the input has ended |
| PascalParser.InnerParser.ParseCallFactor | src/main/kotlin/com/itmo/pascal/lang/PascalParser.kt:538-543 | At an identifier, fills the FACTOR with the identifier token and a parameter list exactly when "(" follows; it consumes the identifier |
| PascalParser.InnerParser.ParsePrefixFactor | src/main/kotlin/com/itmo/pascal/lang/PascalParser.kt:544-564 | At NOT, "+" or "-", fills the FACTOR with that token and a factor; it consumes the operator |
| PascalParser.InnerParser.ParseParenthesisedFactor | src/main/kotlin/com/itmo/pascal/lang/PascalParser.kt:551-555 | At "(", fills the FACTOR with "(", an expression and the closing token expected with the kind LPAREN; it consumes the "(" |
| PascalParser.InnerParser.ParseArguments | src/main/kotlin/com/itmo/pascal/lang/PascalParser.kt:540-542 | Adds a parameter list exactly when "(" is current, and nothing otherwise; the list starts at that "(" |
| PascalParser.InnerParser.ParseParameterList | src/main/kotlin/com/itmo/pascal/lang/PascalParser.kt:570-583 | Adds one PARAMETER_LIST: "(", expressions each optionally followed by one comma, ")" or its error; the loop ends at ")" or at the end of the input (corrected loop, see Findings) |
| PascalParser.InnerParser.ParseArgument | src/main/kotlin/com/itmo/pascal/lang/PascalParser.kt:575-578 | One pass of the parameter loop: an expression and the comma after it exactly when one is current; it consumes input, and the arguments parsed so far stay an argument list starting where they did |
| PascalParser.InnerParser.ParameterListPassAtEnd | src/main/kotlin/com/itmo/pascal/lang/PascalParser.kt:574-579 | As written, a pass of the parameter loop at the end of the input adds an expression, consumes nothing and leaves the loop condition true |
| PascalParser.InnerParser.ParseUnsignedConstant | src/main/kotlin/com/itmo/pascal/lang/PascalParser.kt:585-595 | Adds one UNSIGNED_CONSTANT: an unsigned integer or string token, or the skipped token in an error; it consumes input unless the input has ended |
| PascalParser.InnerParser.ParseStatementPart | src/main/kotlin/com/itmo/pascal/lang/PascalParser.kt:597-603 | Adds one STATEMENT_PART around a compound statement |
| PascalParser.InnerParser.ParseCompoundStatement | src/main/kotlin/com/itmo/pascal/lang/PascalParser.kt:605-613 | Adds one COMPOUND_STATEMENT: BEGIN, statements separated by ";", END, each keyword or its error |
| PascalParser.InnerParser.ParseStatementList | src/main/kotlin/com/itmo/pascal/lang/PascalParser.kt:615-621 | Adds STATEMENT elements separated by ";" tokens and stops at a token that is not ";" |
| PascalParser.InnerParser.ParseStatement | src/main/kotlin/com/itmo/pascal/lang/PascalParser.kt:623-636 | Adds one STATEMENT; it starts with a LABEL exactly when the token after the current one is ":"; its body is structured exactly when that body starts at BEGIN, IF, FOR, WHILE or REPEAT |
| PascalParser.InnerParser.ParseStatementLabel | src/main/kotlin/com/itmo/pascal/lang/PascalParser.kt:626-629 | Adds a label and ":" exactly when the next token is ":", and nothing otherwise; a label that is a token is followed by the ":" token itself |
| PascalParser.InnerParser.ParseStatementBody | src/main/kotlin/com/itmo/pascal/lang/PascalParser.kt:631-633 | Adds a structured statement exactly when BEGIN, IF, FOR, WHILE or REPEAT is current, and a simple statement otherwise; what it adds starts at the current token |
| PascalParser.InnerParser.TryParseStructuredStatement | src/main/kotlin/com/itmo/pascal/lang/PascalParser.kt:638-661 | Returns true exactly when BEGIN, IF, FOR, WHILE or REPEAT is current. It then adds that statement; otherwise the builder is unchanged |
| PascalParser.InnerParser.ParseForStatement | src/main/kotlin/com/itmo/pascal/lang/PascalParser.kt:663-682 | Adds one FOR_STATEMENT: FOR, an assignment, TO or DOWNTO (or the skipped token in an error), an expression, DO, a statement |
| PascalParser.InnerParser.ParseForDirection | src/main/kotlin/com/itmo/pascal/lang/PascalParser.kt:671-675 | Adds TO exactly when TO is current and DOWNTO exactly when DOWNTO is; otherwise adds the error "Expected TO or DOWNTO" |
| PascalParser.InnerParser.ParseConditionStatement | src/main/kotlin/com/itmo/pascal/lang/PascalParser.kt:684-697 | Adds one CONDITION_STATEMENT: IF, an expression, THEN, a statement, an optional ELSE branch |
| PascalParser.InnerParser.ParseElseBranch | src/main/kotlin/com/itmo/pascal/lang/PascalParser.kt:690-693 | Adds ELSE and a statement exactly when ELSE is current |
| PascalParser.InnerParser.ParseWhileStatement | src/main/kotlin/com/itmo/pascal/lang/PascalParser.kt:699-708 | Adds one WHILE_STATEMENT: WHILE, an expression, DO, a statement |
| PascalParser.InnerParser.ParseRepeatStatement | src/main/kotlin/com/itmo/pascal/lang/PascalParser.kt:711-725 | Adds one REPEAT_STATEMENT: REPEAT, statements separated by ";" (the loop of parseStatementList, which the source repeats inline), UNTIL, an expression |
| PascalParser.InnerParser.ParseLabel | src/main/kotlin/com/itmo/pascal/lang/PascalParser.kt:727-743 | Adds one LABEL: the current token, consumed, exactly when it is an identifier or an unsigned integer (bad characters after it skipped); otherwise the empty error "IDENTIFIER or UNSIGNED_INTEGER", consuming nothing |
| PascalParser.InnerParser.ParseSimpleStatement | src/main/kotlin/com/itmo/pascal/lang/PascalParser.kt:745-753 | Adds one SIMPLE_STATEMENT. It is an assignment exactly when the next token is in ASSIGNMENTS, and a procedure statement otherwise |
| PascalParser.InnerParser.TryParseAssignment | src/main/kotlin/com/itmo/pascal/lang/PascalParser.kt:755-762 | Returns true exactly when the next token is in ASSIGNMENTS. It then adds an assignment; otherwise the builder is unchanged |
| PascalParser.InnerParser.ParseAssignment | src/main/kotlin/com/itmo/pascal/lang/PascalParser.kt:764-791 | Adds one ASSIGNMENT: an identifier token, an assignment operator or its error, an expression. When the token after the current one is in ASSIGNMENTS and the name is a token, that token comes right after the name |
| PascalParser.InnerParser.ParseAssignmentOperator | src/main/kotlin/com/itmo/pascal/lang/PascalParser.kt:768-786 | Consumes and adds the current token when it is ":=", "+=", "-=", "*=" or "/="; otherwise adds the bare error "ASSIGNMENT_OPERATOR", consumes nothing, and the current token is none of the five |
| PascalParser.InnerParser.ParseProcedureStatement | src/main/kotlin/com/itmo/pascal/lang/PascalParser.kt:793-802 | Adds one PROCEDURE_STATEMENT: an identifier token and a parameter list exactly when "(" follows |
| PascalParser.InnerParser.Advance | src/main/kotlin/com/itmo/pascal/lang/PascalParser.kt:804-813 | Returns the old current kind and consumes one token unless the input has ended. It then skips every following BAD_CHARACTER, each into its own "Unexpected character" error element, and stops at a token that is not one |
| PascalParser.InnerParser.SkipBadCharacters | src/main/kotlin/com/itmo/pascal/lang/PascalParser.kt:807-811 | Skips only BAD_CHARACTER tokens, stops at a token that is not one, and adds one error element per skipped token |
| PascalParser.InnerParser.ErrorAdvance | src/main/kotlin/com/itmo/pascal/lang/PascalParser.kt:815-819 | Adds one error element "Expected <name>" holding the skipped token, or nothing at the end of the input; it consumes a token exactly when the input has not ended |
| PascalParser.InnerParser.ExpectAdvance | src/main/kotlin/com/itmo/pascal/lang/PascalParser.kt:821-830 | Returns true exactly when the expected kind is current. It then adds and consumes that token; otherwise it adds an empty error "Expected <name>" and does not move |
| PascalParser.BadTrail | src/main/kotlin/com/itmo/pascal/lang/PascalParser.kt:807-811 | One "Unexpected character" error element per skipped token, each around that token |
| PascalGrammar.FileStartsWithProgram | src/main/kotlin/com/itmo/pascal/lang/PascalParser.kt:244 | A FILE that starts at a PROGRAM token holds that token as its header's first item, never the error "Expected PROGRAM"; with `Parse`, this holds for the tree of every input whose first token is PROGRAM |
| PascalGrammar.ParenthesisedFactorClose | src/main/kotlin/com/itmo/pascal/lang/PascalParser.kt:551-556 | A parenthesised factor has three items, and its last is never a ")" token: it is a "(" token or the empty error "Expected )" |
| PascalReferences.FindChildByType | src/main/kotlin/com/itmo/pascal/lang/PascalExpressionElements.kt:24-25 | The result is the first child of that kind; None exactly when no child has that kind |
| PascalReferences.PathPrefix | src/main/kotlin/com/itmo/pascal/lang/PascalExpressionElements.kt:15-17 | Every ancestor of a node, reached through treeParent, is a node of the tree |
| PascalReferences.FindFileNode | src/main/kotlin/com/itmo/pascal/lang/PascalExpressionElements.kt:13-20 | Climbing parent links from any node ends at the root |
| PascalReferences.FindDeclarations | src/main/kotlin/com/itmo/pascal/lang/PascalExpressionElements.kt:22-26 | The result is a DECLARATION_PART child of the root's first BLOCK child; None when the root has no BLOCK child |
| PascalReferences.DeclaredName | src/main/kotlin/com/itmo/pascal/lang/PascalExpressionElements.kt:63-71 | The first IDENTIFIER element child, exactly when its text equals the name; None otherwise |
| PascalReferences.FirstDeclaredVar | src/main/kotlin/com/itmo/pascal/lang/PascalExpressionElements.kt:49-61 | The first child whose IDENTIFIER element has the name; the result is such an element, no earlier child has one, and None exactly when no child does |
| PascalReferences.LookInDeclaredVars | src/main/kotlin/com/itmo/pascal/lang/PascalExpressionElements.kt:49-61 | The early-exit scan over the children returns what FirstDeclaredVar specifies |
| PascalReferences.EntryLookup | src/main/kotlin/com/itmo/pascal/lang/PascalExpressionElements.kt:31-38 | Only a variable declaration part, a procedure or a function declaration yields anything, and what it yields is an IDENTIFIER element with the name |
| PascalReferences.FirstDeclaredEntity | src/main/kotlin/com/itmo/pascal/lang/PascalExpressionElements.kt:28-47 | The answer of the first entry that has one: an IDENTIFIER element with the name, taken from an entry of the three kinds; no earlier entry answers; None exactly when no entry does |
| PascalReferences.LookInDeclaredEntities | src/main/kotlin/com/itmo/pascal/lang/PascalExpressionElements.kt:28-47 | The early-exit scan over the entries returns what FirstDeclaredEntity specifies |
| PascalReferences.NonEntryIrrelevant | src/main/kotlin/com/itmo/pascal/lang/PascalExpressionElements.kt:31-38 | Inserting anything other than a variable declaration part, procedure or function declaration among the entries never changes the answer |
| PascalReferences.Resolve | src/main/kotlin/com/itmo/pascal/lang/PascalExpressionElements.kt:78-81 | A result is an IDENTIFIER element with the name, taken from an entry of the root's declaration part |
| PascalReferences.GetReference | src/main/kotlin/com/itmo/pascal/lang/PascalExpressionElements.kt:73-89 | For the identifier at any node, climbs to the root, finds the declarations (None when absent) and returns Resolve of the node's text |
| PascalParsedReferences.ParsedFileResolvesNothing | src/main/kotlin/com/itmo/pascal/lang/PascalExpressionElements.kt:49-71 | On any FILE of the grammar, which includes every tree the parser builds, no identifier resolves: declarations hold their names as IDENTIFIER tokens, never as IDENTIFIER elements |

## Left out

- The lexer is not part of this model. The builder starts from its token list with whitespace and comments removed, and tokens carry their text.
- The internals of `PsiBuilder` are modelled only as far as the parser uses them. Markers are values that remember the enclosing children. Precedes/collapse markers, the error recovery of `PsiBuilder` itself and the final `treeBuilt` above the root are not modelled.
- Token and element types are numbered in declaration order. IDENTIFIER, UNSIGNED_INTEGER and BAD_CHARACTER are not in the token table and get their own numbers. The sets SIMPLE_EXPRESSION_OPERATORS, TERM_OPERATORS and FACTOR_OPERATORS are not in the token table either; they are rebuilt from the parser's dispatch cases.
- The grammar predicates describe the tree with skipped bad-character error elements left out. Where those sit is stated only by `Advance`, `SkipBadCharacters` and the builder invariant, not by the grammar.
- PascalParser.InnerParser.ErrorAdvance, PascalParser.InnerParser.ExpectAdvance: their outcome is stated on the shape view and the cursor; the exact trees added are stated only through the builder invariant.
- `parseRepeatStatement` repeats the loop of `parseStatementList` inline; `ParseRepeatStatement` calls `ParseStatementList` instead, which adds the same elements.
- PascalGrammar.IsSimpleStatement: the grammar does not rule out a procedure statement whose name is followed by a token in ASSIGNMENTS. That the parser never builds one is stated by ParseSimpleStatement's `ensures`, not by the grammar.
- Tokens left after `parseFile` returns are not modelled: `Parse` says only which prefix of the input the tree covers.
- The helper methods ParseDeclaration, ParseVariableInitializer, ParseVariableType, ParseRelationalOperator, ParseCallFactor, ParsePrefixFactor, ParseParenthesisedFactor, ParseArguments, ParseArgument, ParseStatementLabel, ParseStatementBody, ParseForDirection, ParseElseBranch, ParseAssignmentOperator and SkipBadCharacters are pieces of the source methods whose lines they cite. They exist to keep each proof small.
- `parseFile` at PascalParser.kt:225 is called by `parse` at line 220. The root element type passed to `parse` is ignored there, as in the source.
- Node identity and `treeParent` are modelled by paths from the root, not by parent pointers.
- `getReference` builds a text range (`rangeInElement`) and a `PsiReferenceBase` object that wraps the found node in a `PascalNamedNode`. Text offsets and these platform objects are left out: `GetReference` returns the found IDENTIFIER element or None.
- The resolver looks only in the DECLARATION_PART of the root's first BLOCK, as the source does. Declarations inside nested functions and procedures are therefore never found.
- Element text is modelled as the concatenation of the token texts under it. Whitespace inside an element is not modelled, because the token list has none.

## Findings

| source | as written | input that shows it | evidently intended | confidence | as-written member | corrected member |
|---|---|---|---|---|---|---|
| src/main/kotlin/com/itmo/pascal/lang/PascalParser.kt:324 | The declaration loop runs while the current token is not BEGIN. At the end of the input, each pass adds an error element "Expected LABEL, VAR, FUNCTION, PROCEDURE" without consuming a token, so the loop never ends | a program with no BEGIN, e.g. the tokens `PROGRAM p ;` and nothing after | the loop also stops at the end of the input | not executed | PascalParser.InnerParser.DeclarationPassAtEnd | PascalParser.InnerParser.ParseDeclarationPart |
| src/main/kotlin/com/itmo/pascal/lang/PascalParser.kt:574 | The parameter loop runs while the current token is not ")". At the end of the input, each pass adds an expression that consumes nothing, so the loop never ends | an unclosed call such as the tokens `f (` at the end of a statement | the loop also stops at the end of the input | not executed | PascalParser.InnerParser.ParameterListPassAtEnd | PascalParser.InnerParser.ParseParameterList |
