/**
 * Token kinds of the Pascal lexer and the token sets the parser dispatches on.
 *
 * A PascalTokenType is an IElementType: an object told apart from every other
 * element type by its registration index. The model gives each kind its own
 * index, in declaration order, under the name the source gives it.
 */
module PascalTokens {

  newtype TokenKind = k: int | 0 <= k < 102

  const NEW_LINE: TokenKind := 0
  const COMMENT: TokenKind := 1
  const STRING: TokenKind := 2
  const INT: TokenKind := 3
  const HEX: TokenKind := 4
  const ABSOLUTE: TokenKind := 5
  const AND: TokenKind := 6
  const ASM: TokenKind := 7
  const BEGIN: TokenKind := 8
  const BREAK: TokenKind := 9
  const CASE: TokenKind := 10
  const CONST: TokenKind := 11
  const CONSTRUCTOR: TokenKind := 12
  const CONTINUE: TokenKind := 13
  const DESTRUCTOR: TokenKind := 14
  const DIV: TokenKind := 15
  const DO: TokenKind := 16
  const DOWNTO: TokenKind := 17
  const ELSE: TokenKind := 18
  const END: TokenKind := 19
  const FILE: TokenKind := 20
  const FOR: TokenKind := 21
  const FUNCTION: TokenKind := 22
  const GOTO: TokenKind := 23
  const IF: TokenKind := 24
  const IMPLEMENTATION: TokenKind := 25
  const IN: TokenKind := 26
  const INHERITED: TokenKind := 27
  const INLINE: TokenKind := 28
  const INTERFACE: TokenKind := 29
  const LABEL: TokenKind := 30
  const MOD: TokenKind := 31
  const NIL: TokenKind := 32
  const NOT: TokenKind := 33
  const OBJECT: TokenKind := 34
  const OF: TokenKind := 35
  const ON: TokenKind := 36
  const OPERATOR: TokenKind := 37
  const OR: TokenKind := 38
  const PACKED: TokenKind := 39
  const PROCEDURE: TokenKind := 40
  const PROGRAM: TokenKind := 41
  const RECORD: TokenKind := 42
  const REPEAT: TokenKind := 43
  const SELF: TokenKind := 44
  const SET: TokenKind := 45
  const SHL: TokenKind := 46
  const SHR: TokenKind := 47
  const THEN: TokenKind := 48
  const TO: TokenKind := 49
  const TYPE: TokenKind := 50
  const UNIT: TokenKind := 51
  const UNTIL: TokenKind := 52
  const USES: TokenKind := 53
  const VAR: TokenKind := 54
  const WHILE: TokenKind := 55
  const WITH: TokenKind := 56
  const XOR: TokenKind := 57
  const INTEGER: TokenKind := 58
  const REAL: TokenKind := 59
  const BOOLEAN: TokenKind := 60
  const CHAR: TokenKind := 61
  const ARRAY: TokenKind := 62
  const APOSTROPHE: TokenKind := 63
  const PLUS: TokenKind := 64
  const MINUS: TokenKind := 65
  const ASTERISK: TokenKind := 66
  const SLASH: TokenKind := 67
  const EQ: TokenKind := 68
  const LT: TokenKind := 69
  const GT: TokenKind := 70
  const LBRACKET: TokenKind := 71
  const RBRACKET: TokenKind := 72
  const DOT: TokenKind := 73
  const COMMA: TokenKind := 74
  const LPAREN: TokenKind := 75
  const RPAREN: TokenKind := 76
  const COLON: TokenKind := 77
  const CARET: TokenKind := 78
  const AT: TokenKind := 79
  const DOLLAR: TokenKind := 80
  const HASH: TokenKind := 81
  const AMP: TokenKind := 82
  const PERCENT: TokenKind := 83
  const SEMICOLON: TokenKind := 84
  const DOUBLE_LT: TokenKind := 85
  const DOUBLE_GT: TokenKind := 86
  const DOUBLE_ASTERISK: TokenKind := 87
  const LT_GT: TokenKind := 88
  const GT_LT: TokenKind := 89
  const LQ: TokenKind := 90
  const GQ: TokenKind := 91
  const ASSIGN: TokenKind := 92
  const PLUS_ASSIGN: TokenKind := 93
  const MINUS_ASSIGN: TokenKind := 94
  const ASTERISK_ASSIGN: TokenKind := 95
  const DIVIDE_ASSIGN: TokenKind := 96
  const LPAREN_DOT: TokenKind := 97
  const RPAREN_DOT: TokenKind := 98

  /** Kinds the parser uses that the token table does not declare: the
    * lexer's identifier and unsigned-integer tokens, and the platform's
    * BAD_CHARACTER. */
  const IDENTIFIER: TokenKind := 99
  const UNSIGNED_INTEGER: TokenKind := 100
  const BAD_CHARACTER: TokenKind := 101

  /** A token as the builder sees it: its kind and the text it covers. */
  datatype Token = Token(kind: TokenKind, text: string)

  /** ASSIGNMENTS: the kinds whose presence one token ahead makes a simple
    * statement an assignment. */
  const Assignments: set<TokenKind> :=
    {EQ, ASSIGN, LQ, GQ, LT_GT, GT_LT, GT, LT, PLUS_ASSIGN, MINUS_ASSIGN,
     ASTERISK_ASSIGN, DIVIDE_ASSIGN}

  /** The operators parseAssignment accepts after the assigned identifier. */
  const AssignmentOperators: set<TokenKind> :=
    {ASSIGN, PLUS_ASSIGN, MINUS_ASSIGN, ASTERISK_ASSIGN, DIVIDE_ASSIGN}

  /** SIMPLE_EXPRESSION_OPERATORS: the relational operators of an expression. */
  const SimpleExpressionOperators: set<TokenKind> := {EQ, LQ, GQ, LT_GT, GT, LT, IN}

  /** TERM_OPERATORS: the additive operators of a simple expression. */
  const TermOperators: set<TokenKind> := {PLUS, MINUS, OR, XOR}

  /** FACTOR_OPERATORS: the multiplicative operators of a term. */
  const FactorOperators: set<TokenKind> := {ASTERISK, DIV, SLASH, MOD, AND}

  /** The type names a variable declaration accepts. */
  const VariableTypes: set<TokenKind> := {INTEGER, REAL, BOOLEAN, CHAR}

  /** The keywords that open a structured statement. */
  const StructuredStarts: set<TokenKind> := {BEGIN, IF, FOR, WHILE, REPEAT}
}
