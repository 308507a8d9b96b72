/**
 * The shapes of the elements InnerParser builds, one predicate per element
 * type, read off the parse methods: the significant children of an element
 * (skipped bad characters left out, see Shape) in the order the method adds
 * them, including the error elements it reports on malformed input.
 *
 * Every predicate also takes `next`, the kind of the token that follows the
 * element (None at the end of the input). With it the predicates say which
 * alternative the parser takes at each point: an optional part is there
 * exactly when its first token is current, a list goes on exactly while its
 * separator is current, and an error element stands in for an expected
 * token only when that token is not the current one.
 */
module PascalGrammar {
  import opened Options
  import opened PascalTokens
  import opened PascalSyntax

  /** The kind of a token at the cursor, None at the end of the input. */
  type Next = Option<TokenKind>

  /** The kind of the first token in `x`, None when it holds none. */
  function First(x: Shape): Next
    decreases x
  {
    match x
    case Tok(t) => Some(t.kind)
    case Elem(_, items) => FirstSeq(items)
    case Err(_, items) => FirstSeq(items)
  }

  function FirstSeq(xs: seq<Shape>): Next
    decreases xs
  {
    if xs == [] then None
    else var k := First(xs[0]); if k.Some? then k else FirstSeq(xs[1..])
  }

  /** The kind of the first token in `xs`, or `next` when `xs` holds no token:
    * where the cursor stood before `xs` was parsed, when it stands at `next`
    * after it. */
  function Lead(xs: seq<Shape>, next: Next): Next {
    var k := FirstSeq(xs); if k.Some? then k else next
  }

  function LeadOf(x: Shape, next: Next): Next {
    var k := First(x); if k.Some? then k else next
  }

  lemma {:induction false} FirstSeqAppend(a: seq<Shape>, b: seq<Shape>)
    ensures FirstSeq(a + b) == if FirstSeq(a).Some? then FirstSeq(a) else FirstSeq(b)
    decreases |a|
  {
    if a == [] {
      assert a + b == b;
    } else {
      assert (a + b)[0] == a[0] && (a + b)[1..] == a[1..] + b;
      FirstSeqAppend(a[1..], b);
    }
  }

  /** Where a run of elements starts is where its first part starts, with the
    * rest in between. */
  lemma LeadAppend(a: seq<Shape>, b: seq<Shape>, next: Next)
    ensures Lead(a + b, next) == Lead(a, Lead(b, next))
  {
    FirstSeqAppend(a, b);
  }

  /** An element starts where its children do. */
  lemma LeadOfNode(kind: NodeKind, items: seq<Shape>, next: Next)
    ensures LeadOf(Elem(kind, items), next) == Lead(items, next)
  {
  }

  /** One element starts where it starts. */
  lemma LeadOne(x: Shape, next: Next)
    ensures Lead([x], next) == LeadOf(x, next)
  {
    assert [x][0] == x && [x][1..] == [];
    assert FirstSeq([]) == None;
  }

  lemma LeadSnoc(xs: seq<Shape>, x: Shape, next: Next)
    ensures Lead(xs + [x], next) == Lead(xs, LeadOf(x, next))
  {
    LeadAppend(xs, [x], next);
    LeadOne(x, next);
  }

  /** Two elements: the first, with the second after it. */
  lemma LeadTwo(x: Shape, y: Shape, next: Next)
    ensures Lead([x, y], next) == LeadOf(x, LeadOf(y, next))
  {
    assert [x, y] == [x] + [y];
    LeadAppend([x], [y], next);
    LeadOne(x, LeadOf(y, next));
    LeadOne(y, next);
  }

  /** The cursor is at a token whose kind is in `ks`. */
  predicate KindIn(k: Next, ks: set<TokenKind>) {
    k.Some? && k.value in ks
  }

  /** The tokens parseFactor dispatches on before its last alternative. */
  const FactorStarts: set<TokenKind> := {IDENTIFIER, NOT, UNSIGNED_INTEGER, LPAREN, PLUS, MINUS}

  /** A token of kind `k`. */
  predicate TokenOf(x: Shape, k: TokenKind) {
    x.Tok? && x.token.kind == k
  }

  /** A token whose kind is in `ks`. */
  predicate TokenIn(x: Shape, ks: set<TokenKind>) {
    x.Tok? && x.token.kind in ks
  }

  /** What expectAdvance(k, name) leaves: the token, or, when the current
    * token (then also the next one) is not a `k`, an empty error element
    * "Expected <name>". */
  predicate ExpectedToken(x: Shape, k: TokenKind, name: string, next: Next) {
    TokenOf(x, k) || (x == Err(Expected(name), []) && next != Some(k))
  }

  /** What errorAdvance(name) leaves where the caller has already ruled out
    * the kinds `excluded`: an error element "Expected <name>" around the one
    * token it skipped, or around nothing at the end of the input. */
  predicate ErrorAdvanced(x: Shape, name: string, excluded: set<TokenKind>, next: Next) {
    && x.Err? && x.message == Expected(name)
    && ((x.items == [] && next == None) ||
        (|x.items| == 1 && x.items[0].Tok? && x.items[0].token.kind !in excluded))
  }

  /** elem (sep elem)*: elements at even positions, `sep` tokens at odd ones;
    * each element but the last is followed by a separator, the last by
    * `next`. */
  predicate Separated(s: seq<Shape>, elem: (Shape, Next) -> bool, sep: TokenKind, next: Next) {
    && |s| % 2 == 1
    && forall i :: 0 <= i < |s| ==>
         if i % 2 == 0 then elem(s[i], if i == |s| - 1 then next else Some(sep))
         else TokenOf(s[i], sep)
  }

  lemma SeparatedOne(x: Shape, elem: (Shape, Next) -> bool, sep: TokenKind, next: Next)
    requires elem(x, next)
    ensures Separated([x], elem, sep, next)
    ensures Lead([x], next) == LeadOf(x, next)
  {
    LeadOne(x, next);
  }

  /** A separated list stays one when a separator and an element follow it,
    * and it still starts where it started. */
  lemma SeparatedSnoc(s: seq<Shape>, elem: (Shape, Next) -> bool, sep: TokenKind,
                      c: Shape, x: Shape, next: Next)
    requires Separated(s, elem, sep, Some(sep)) && TokenOf(c, sep) && elem(x, next)
    ensures Separated(s + [c, x], elem, sep, next)
    ensures Lead(s + [c, x], next) == Lead(s, Some(sep))
  {
    var r := s + [c, x];
    forall i | 0 <= i < |r|
      ensures if i % 2 == 0 then elem(r[i], if i == |r| - 1 then next else Some(sep))
              else TokenOf(r[i], sep)
    {
      if i < |s| {
        assert r[i] == s[i];
      } else if i == |s| {
        assert r[i] == c && i % 2 == 1;
      } else {
        assert r[i] == x && i % 2 == 0;
      }
    }
    LeadAppend(s, [c, x], next);
    LeadTwo(c, x, next);
  }

  /** Elements each followed by what comes after it: the element after it,
    * or `next` after the last. */
  predicate Run(s: seq<Shape>, elem: (Shape, Next) -> bool, next: Next) {
    forall i :: 0 <= i < |s| ==> elem(s[i], Lead(s[i + 1..], next))
  }

  lemma RunSnoc(s: seq<Shape>, elem: (Shape, Next) -> bool, x: Shape, next: Next)
    requires Run(s, elem, LeadOf(x, next)) && elem(x, next)
    ensures Run(s + [x], elem, next)
    ensures Lead(s + [x], next) == Lead(s, LeadOf(x, next))
  {
    var r := s + [x];
    forall i | 0 <= i < |r|
      ensures elem(r[i], Lead(r[i + 1..], next))
    {
      if i < |s| {
        assert r[i] == s[i] && r[i + 1..] == s[i + 1..] + [x];
        LeadSnoc(s[i + 1..], x, next);
      } else {
        assert r[i + 1..] == [];
      }
    }
    LeadSnoc(s, x, next);
  }

  /** One or more variable declarations, each after the first starting at an
    * identifier. */
  predicate IsVariableDeclarationList(s: seq<Shape>, next: Next) {
    && |s| >= 1
    && forall i :: 0 <= i < |s| ==>
         && IsVariableDeclaration(s[i], if i == |s| - 1 then next else Some(IDENTIFIER))
         && (i > 0 ==> LeadOf(s[i], if i == |s| - 1 then next else Some(IDENTIFIER)) == Some(IDENTIFIER))
  }

  /** A variable declaration list stays one when a declaration that starts
    * at an identifier follows it. */
  lemma VariableDeclarationsSnoc(s: seq<Shape>, x: Shape, next: Next)
    requires IsVariableDeclarationList(s, Some(IDENTIFIER))
    requires IsVariableDeclaration(x, next) && LeadOf(x, next) == Some(IDENTIFIER)
    ensures IsVariableDeclarationList(s + [x], next)
    ensures Lead(s + [x], next) == Lead(s, Some(IDENTIFIER))
  {
    var r := s + [x];
    forall i | 0 <= i < |r|
      ensures IsVariableDeclaration(r[i], if i == |r| - 1 then next else Some(IDENTIFIER))
      ensures i > 0 ==> LeadOf(r[i], if i == |r| - 1 then next else Some(IDENTIFIER)) == Some(IDENTIFIER)
    {
      if i < |s| {
        assert r[i] == s[i];
      }
    }
    LeadSnoc(s, x, next);
  }

  /** An argument list stays one when an element not followed by a comma is
    * appended at a token that neither closes the list nor ends the input. */
  lemma ArgumentsSnoc(s: seq<Shape>, elem: (Shape, Next) -> bool, x: Shape, next: Next)
    requires Arguments(s, elem, LeadOf(x, next)) && elem(x, next) && !TokenOf(x, COMMA)
    requires LeadOf(x, next) != Some(RPAREN) && LeadOf(x, next) != None && next != Some(COMMA)
    ensures Arguments(s + [x], elem, next)
    ensures Lead(s + [x], next) == Lead(s, LeadOf(x, next))
  {
    var r := s + [x];
    forall i | 0 <= i < |r|
      ensures ArgAt(r, i, elem, next)
    {
      if i < |s| {
        assert ArgAt(s, i, elem, LeadOf(x, next));
        assert r[i] == s[i] && r[i + 1..] == s[i + 1..] + [x] && r[i..] == s[i..] + [x];
        LeadSnoc(s[i + 1..], x, next);
        LeadSnoc(s[i..], x, next);
        if i > 0 {
          assert r[i - 1] == s[i - 1];
        }
        if i + 1 < |s| {
          assert r[i + 1] == s[i + 1];
        }
      } else {
        assert r[i + 1..] == [] && r[i..] == [x];
        LeadOne(x, next);
      }
    }
    LeadSnoc(s, x, next);
  }

  /** ... and when an element and the comma after it are appended. */
  lemma ArgumentsSnocComma(s: seq<Shape>, elem: (Shape, Next) -> bool, x: Shape, c: Shape, next: Next)
    requires Arguments(s, elem, LeadOf(x, Some(COMMA))) && elem(x, Some(COMMA)) && !TokenOf(x, COMMA)
    requires LeadOf(x, Some(COMMA)) != Some(RPAREN) && LeadOf(x, Some(COMMA)) != None
    requires TokenOf(c, COMMA)
    ensures Arguments(s + [x, c], elem, next)
    ensures Lead(s + [x, c], next) == Lead(s, LeadOf(x, Some(COMMA)))
  {
    var r := s + [x, c];
    LeadTwo(x, c, next);
    LeadOne(c, next);
    forall i | 0 <= i < |r|
      ensures ArgAt(r, i, elem, next)
    {
      if i < |s| {
        assert ArgAt(s, i, elem, LeadOf(x, Some(COMMA)));
        assert r[i] == s[i] && r[i + 1..] == s[i + 1..] + [x, c] && r[i..] == s[i..] + [x, c];
        LeadAppend(s[i + 1..], [x, c], next);
        LeadAppend(s[i..], [x, c], next);
        assert Lead([x, c], next) == LeadOf(x, Some(COMMA));
        if i > 0 {
          assert r[i - 1] == s[i - 1];
        }
        if i + 1 < |s| {
          assert r[i + 1] == s[i + 1];
        }
      } else if i == |s| {
        assert r[i] == x && r[i + 1..] == [c] && r[i..] == [x, c];
        assert Lead([x, c], next) == LeadOf(x, Some(COMMA));
      } else {
        assert r[i] == c && r[i - 1] == x;
      }
    }
    LeadAppend(s, [x, c], next);
    assert Lead([x, c], next) == LeadOf(x, Some(COMMA));
  }

  // ---- program, header, uses clause ----

  /** FILE: header ";" [uses clause] block "." with the uses clause there
    * exactly when USES follows the ";". */
  predicate IsFile(t: Shape, next: Next) {
    var c := Items(t);
    && IsNode(t, File)
    && (|c| == 4 || |c| == 5)
    && (var afterBlock := LeadOf(c[|c| - 1], next);
        var atBlock := LeadOf(c[|c| - 2], afterBlock);
        var afterSemi := if |c| == 5 then LeadOf(c[2], atBlock) else atBlock;
        var afterHeader := LeadOf(c[1], afterSemi);
        && IsProgramHeader(c[0], afterHeader)
        && ExpectedToken(c[1], SEMICOLON, ";", afterSemi)
        && (if |c| == 5 then afterSemi == Some(USES) && IsUsesClause(c[2], atBlock)
            else afterSemi != Some(USES))
        && IsBlock(c[|c| - 2], afterBlock)
        && ExpectedToken(c[|c| - 1], DOT, ".", next))
  }

  /** PROGRAM_HEADER: "PROGRAM" identifier [program parameters], the
    * parameters there exactly when "(" follows the identifier. */
  predicate IsProgramHeader(t: Shape, next: Next) {
    var c := Items(t);
    && IsNode(t, ProgramHeader)
    && (|c| == 2 || |c| == 3)
    && (var afterName := if |c| == 3 then LeadOf(c[2], next) else next;
        && ExpectedToken(c[0], PROGRAM, "PROGRAM", LeadOf(c[1], afterName))
        && IsIdentifier(c[1], afterName)
        && (if |c| == 3 then afterName == Some(LPAREN) && IsProgramParameters(c[2], next)
            else afterName != Some(LPAREN)))
  }

  /** A run of elements starts where its first element does, with the rest
    * of the run after it. */
  lemma LeadCons(xs: seq<Shape>, next: Next)
    requires |xs| > 0
    ensures Lead(xs, next) == LeadOf(xs[0], Lead(xs[1..], next))
  {
    assert xs == [xs[0]] + xs[1..];
    LeadAppend([xs[0]], xs[1..], next);
    LeadOne(xs[0], Lead(xs[1..], next));
  }

  /** A FILE that starts at a PROGRAM token holds that token as the first
    * item of its header: the error "Expected PROGRAM" stands only where
    * PROGRAM is not current. */
  lemma FileStartsWithProgram(f: Shape, next: Next)
    requires IsFile(f, next) && LeadOf(f, next) == Some(PROGRAM)
    ensures TokenOf(Items(Items(f)[0])[0], PROGRAM)
  {
    var c := Items(f);
    var afterBlock := LeadOf(c[|c| - 1], next);
    var atBlock := LeadOf(c[|c| - 2], afterBlock);
    var afterSemi := if |c| == 5 then LeadOf(c[2], atBlock) else atBlock;
    var afterHeader := LeadOf(c[1], afterSemi);
    LeadOfNode(File, c, next);
    LeadCons(c, next);
    LeadCons(c[1..], next);
    assert c[1..][1..] == c[2..];
    LeadCons(c[2..], next);
    assert c[2..][1..] == c[3..];
    LeadCons(c[3..], next);
    if |c| == 5 {
      assert c[3..][1..] == c[4..];
      LeadCons(c[4..], next);
      assert c[4..][1..] == [];
    } else {
      assert c[3..][1..] == [];
    }
    assert Lead(c[1..], next) == afterHeader;
    var h := Items(c[0]);
    var afterName := if |h| == 3 then LeadOf(h[2], afterHeader) else afterHeader;
    LeadOfNode(ProgramHeader, h, afterHeader);
    LeadCons(h, afterHeader);
    LeadCons(h[1..], afterHeader);
    if |h| == 3 {
      assert h[1..][1..] == h[2..];
      LeadCons(h[2..], afterHeader);
      assert h[2..][1..] == [];
    } else {
      assert h[1..][1..] == [];
    }
    assert Lead(h[1..], afterHeader) == LeadOf(h[1], afterName);
  }

  /** IDENTIFIER: exactly what expectAdvance(IDENTIFIER) left. */
  predicate IsIdentifier(t: Shape, next: Next) {
    var c := Items(t);
    && IsNode(t, Identifier)
    && |c| == 1
    && ExpectedToken(c[0], IDENTIFIER, "IDENTIFIER", next)
  }

  /** PROGRAM_PARAMETERS: "(" [identifier list] ")", the list there exactly
    * when an identifier follows the "(". */
  predicate IsProgramParameters(t: Shape, next: Next) {
    var c := Items(t);
    && IsNode(t, ProgramParameters)
    && |c| >= 2
    && (var atClose := LeadOf(c[|c| - 1], next);
        var afterOpen := Lead(c[1..|c| - 1], atClose);
        && ExpectedToken(c[0], LPAREN, "(", afterOpen)
        && (if |c| == 2 then afterOpen != Some(IDENTIFIER)
            else && afterOpen == Some(IDENTIFIER)
                 && Separated(c[1..|c| - 1], IsIdentifier, COMMA, atClose)
                 && atClose != Some(COMMA))
        && ExpectedToken(c[|c| - 1], RPAREN, ")", next))
  }

  /** USES_CLAUSE: "USES" clause list ";" */
  predicate IsUsesClause(t: Shape, next: Next) {
    var c := Items(t);
    && IsNode(t, UsesClause)
    && |c| >= 3
    && (var atSemi := LeadOf(c[|c| - 1], next);
        && ExpectedToken(c[0], USES, "USES", Lead(c[1..|c| - 1], atSemi))
        && Separated(c[1..|c| - 1], IsClause, COMMA, atSemi)
        && atSemi != Some(COMMA)
        && ExpectedToken(c[|c| - 1], SEMICOLON, ";", next))
  }

  /** CLAUSE: identifier token ["IN" string], the string part there exactly
    * when IN follows the name. */
  predicate IsClause(t: Shape, next: Next) {
    var c := Items(t);
    && IsNode(t, Clause)
    && ((|c| == 1 && next != Some(IN) && ExpectedToken(c[0], IDENTIFIER, "IDENTIFIER", next)) ||
        (&& |c| == 3
         && ExpectedToken(c[0], IDENTIFIER, "IDENTIFIER", Some(IN))
         && TokenOf(c[1], IN)
         && ExpectedToken(c[2], STRING, "STRING", next)))
  }

  // ---- blocks and declarations ----

  /** BLOCK: [declaration part] statement part, the declaration part there
    * exactly when the block does not start at BEGIN or at the end. */
  predicate IsBlock(t: Shape, next: Next)
    decreases t, 0
  {
    var c := Items(t);
    && IsNode(t, Block)
    && ((&& |c| == 1
         && IsStatementPart(c[0], next)
         && (LeadOf(c[0], next) == Some(BEGIN) || LeadOf(c[0], next) == None)) ||
        (|c| == 2 && IsDeclarationPart(c[0], LeadOf(c[1], next)) && IsStatementPart(c[1], next)))
  }

  /** DECLARATION_PART: one or more declarations, or error elements for tokens
    * that open none, up to BEGIN or the end of the input. */
  predicate IsDeclarationPart(t: Shape, next: Next)
    decreases t, 0
  {
    var c := Items(t);
    && IsNode(t, DeclarationPart)
    && |c| >= 1
    && (next == Some(BEGIN) || next == None)
    && forall i :: 0 <= i < |c| ==> IsDeclaration(c[i], Lead(c[i + 1..], next))
  }

  /** One entry of a declaration part: what the declaration loop adds for the
    * token it is at, which is neither BEGIN nor the end of the input. */
  predicate IsDeclaration(t: Shape, next: Next)
    decreases t, 1
  {
    var k := LeadOf(t, next);
    && k != None && k != Some(BEGIN)
    && (|| (k == Some(LABEL) && IsLabelDeclarationPart(t, next))
        || (k == Some(VAR) && IsVariableDeclarationPart(t, next))
        || (k == Some(FUNCTION) && IsFunctionDeclaration(t, next))
        || (k == Some(PROCEDURE) && IsProcedureDeclaration(t, next))
        || ErrorAdvanced(t, "LABEL, VAR, FUNCTION, PROCEDURE", {LABEL, VAR, FUNCTION, PROCEDURE}, next))
  }

  /** FUNCTION_DECLARATION: "FUNCTION" identifier token ";" block */
  predicate IsFunctionDeclaration(t: Shape, next: Next)
    decreases t, 0
  {
    var c := Items(t);
    && IsNode(t, FunctionDeclaration)
    && |c| == 4
    && (var afterSemi := LeadOf(c[3], next);
        var afterName := LeadOf(c[2], afterSemi);
        && ExpectedToken(c[0], FUNCTION, "FUNCTION", LeadOf(c[1], afterName))
        && ExpectedToken(c[1], IDENTIFIER, "IDENTIFIER", afterName)
        && ExpectedToken(c[2], SEMICOLON, ";", afterSemi)
        && IsBlock(c[3], next))
  }

  /** PROCEDURE_DECLARATION: "PROCEDURE" identifier token ";" block */
  predicate IsProcedureDeclaration(t: Shape, next: Next)
    decreases t, 0
  {
    var c := Items(t);
    && IsNode(t, ProcedureDeclaration)
    && |c| == 4
    && (var afterSemi := LeadOf(c[3], next);
        var afterName := LeadOf(c[2], afterSemi);
        && ExpectedToken(c[0], PROCEDURE, "PROCEDURE", LeadOf(c[1], afterName))
        && ExpectedToken(c[1], IDENTIFIER, "IDENTIFIER", afterName)
        && ExpectedToken(c[2], SEMICOLON, ";", afterSemi)
        && IsBlock(c[3], next))
  }

  /** LABEL_DECLARATION_PART: "LABEL" label list ";" */
  predicate IsLabelDeclarationPart(t: Shape, next: Next) {
    var c := Items(t);
    && IsNode(t, LabelDeclarationPart)
    && |c| >= 3
    && (var atSemi := LeadOf(c[|c| - 1], next);
        && ExpectedToken(c[0], LABEL, "LABEL", Lead(c[1..|c| - 1], atSemi))
        && Separated(c[1..|c| - 1], IsLabel, COMMA, atSemi)
        && atSemi != Some(COMMA)
        && ExpectedToken(c[|c| - 1], SEMICOLON, ";", next))
  }

  /** VARIABLE_DECLARATION_PART: "VAR" variable declaration+, up to a token
    * that is not an identifier. */
  predicate IsVariableDeclarationPart(t: Shape, next: Next) {
    var c := Items(t);
    && IsNode(t, VariableDeclarationPart)
    && |c| >= 2
    && ExpectedToken(c[0], VAR, "VAR", Lead(c[1..], next))
    && IsVariableDeclarationList(c[1..], next)
    && next != Some(IDENTIFIER)
  }

  /** VARIABLE_DECLARATION: identifier token ":" type ["=" expression] ";",
    * the initializer there exactly when "=" follows the type. */
  predicate IsVariableDeclaration(t: Shape, next: Next) {
    var c := Items(t);
    && IsNode(t, VariableDeclaration)
    && (|c| == 4 || |c| == 6)
    && (var atSemi := LeadOf(c[|c| - 1], next);
        var afterType := if |c| == 6 then LeadOf(c[3], LeadOf(c[4], atSemi)) else atSemi;
        var afterColon := LeadOf(c[2], afterType);
        && ExpectedToken(c[0], IDENTIFIER, "IDENTIFIER", LeadOf(c[1], afterColon))
        && ExpectedToken(c[1], COLON, ":", afterColon)
        && (|| TokenIn(c[2], VariableTypes)
            || ErrorAdvanced(c[2], "INTEGER, REAL, BOOLEAN, CHAR", VariableTypes, afterType))
        && (if |c| == 6 then TokenOf(c[3], EQ) && IsExpression(c[4], atSemi)
            else afterType != Some(EQ))
        && ExpectedToken(c[|c| - 1], SEMICOLON, ";", next))
  }

  // ---- expressions ----

  /** EXPRESSION: simple expression [relational operator simple expression],
    * the operator part there exactly when a relational operator follows the
    * first operand. */
  predicate IsExpression(t: Shape, next: Next) {
    var c := Items(t);
    && IsNode(t, Expression)
    && ((|c| == 1 && IsSimpleExpression(c[0], next) && !KindIn(next, SimpleExpressionOperators)) ||
        (&& |c| == 3
         && IsSimpleExpression(c[0], LeadOf(c[1], LeadOf(c[2], next)))
         && IsSimpleExpressionOperator(c[1])
         && IsSimpleExpression(c[2], next)))
  }

  /** SIMPLE_EXPRESSION: term [additive operator term] */
  predicate IsSimpleExpression(t: Shape, next: Next) {
    var c := Items(t);
    && IsNode(t, SimpleExpression)
    && ((|c| == 1 && IsTerm(c[0], next) && !KindIn(next, TermOperators)) ||
        (&& |c| == 3
         && IsTerm(c[0], LeadOf(c[1], LeadOf(c[2], next)))
         && IsTermOperator(c[1])
         && IsTerm(c[2], next)))
  }

  /** TERM: factor [multiplicative operator factor] */
  predicate IsTerm(t: Shape, next: Next) {
    var c := Items(t);
    && IsNode(t, Term)
    && ((|c| == 1 && IsFactor(c[0], next) && !KindIn(next, FactorOperators)) ||
        (&& |c| == 3
         && IsFactor(c[0], LeadOf(c[1], LeadOf(c[2], next)))
         && IsFactorOperator(c[1])
         && IsFactor(c[2], next)))
  }

  /** An operator element holding one operator token of the given set. */
  predicate IsOperator(t: Shape, k: NodeKind, ops: set<TokenKind>) {
    var c := Items(t);
    IsNode(t, k) && |c| == 1 && TokenIn(c[0], ops)
  }

  predicate IsSimpleExpressionOperator(t: Shape) {
    IsOperator(t, SimpleExpressionOperator, SimpleExpressionOperators)
  }

  predicate IsTermOperator(t: Shape) {
    IsOperator(t, TermOperator, TermOperators)
  }

  predicate IsFactorOperator(t: Shape) {
    IsOperator(t, FactorOperator, FactorOperators)
  }

  /** FACTOR: identifier token [parameter list] | "NOT" factor | unsigned integer
    * | "(" expression ")" | ("+" | "-") factor | unsigned constant, the
    * last when the factor starts at none of FactorStarts; the parameter list
    * is there exactly when "(" follows the identifier. */
  predicate IsFactor(t: Shape, next: Next) {
    var c := Items(t);
    && IsNode(t, Factor)
    && |c| >= 1
    && (|| (&& TokenOf(c[0], IDENTIFIER)
            && (|c| == 1 || |c| == 2)
            && (if |c| == 2 then LeadOf(c[1], next) == Some(LPAREN) && IsParameterList(c[1], next)
                else next != Some(LPAREN)))
        || (|c| == 2 && TokenOf(c[0], NOT) && IsFactor(c[1], next))
        || (|c| == 1 && TokenOf(c[0], UNSIGNED_INTEGER))
        || (&& |c| == 3
            && TokenOf(c[0], LPAREN)
            && IsExpression(c[1], LeadOf(c[2], next))
            && ExpectedToken(c[2], LPAREN, ")", next))
        || (|c| == 2 && (TokenOf(c[0], PLUS) || TokenOf(c[0], MINUS)) && IsFactor(c[1], next))
        || (|c| == 1 && IsUnsignedConstant(c[0], next) && !KindIn(LeadOf(c[0], next), FactorStarts)))
  }

  /** The closing item of a parenthesised factor is expected as a "(" token
    * (parseFactor passes LPAREN with the name ")"), so a ")" never closes
    * one: in its place stands the empty error element "Expected )", and
    * the ")" is left for whatever follows. */
  lemma ParenthesisedFactorClose(t: Shape, next: Next)
    requires IsFactor(t, next) && TokenOf(Items(t)[0], LPAREN)
    ensures |Items(t)| == 3
    ensures !TokenOf(Items(t)[2], RPAREN)
    ensures Items(t)[2] == Err(Expected(")"), []) || TokenOf(Items(t)[2], LPAREN)
    ensures next == Some(RPAREN) && LeadOf(Items(t)[2], next) == Some(RPAREN) ==>
              Items(t)[2] == Err(Expected(")"), [])
  {
  }

  /** PARAMETER_LIST: "(" (expression [","])* ")": the expressions go on until
    * ")" or the end of the input, and a comma follows an expression exactly
    * when the token after it is one. */
  predicate IsParameterList(t: Shape, next: Next)
    decreases t, 1
  {
    var c := Items(t);
    && IsNode(t, ParameterList)
    && |c| >= 2
    && (var atClose := LeadOf(c[|c| - 1], next);
        && ExpectedToken(c[0], LPAREN, "(", Lead(c[1..|c| - 1], atClose))
        && (atClose == Some(RPAREN) || atClose == None)
        && (forall j :: 0 <= j < |c| - 2 ==> ArgumentAt(t, j, next))
        && ExpectedToken(c[|c| - 1], RPAREN, ")", next))
  }

  /** Position j between the parentheses of a parameter list: a comma right
    * after an expression, or an expression that starts at a token that
    * neither closes the list nor ends the input, with a comma token after it
    * when the token that follows it is a comma. */
  predicate ArgumentAt(t: Shape, j: int, next: Next)
    decreases t, 0
  {
    var c := Items(t);
    && |c| >= 2 && 0 <= j < |c| - 2
    && (var args := c[1..|c| - 1];
        var atClose := LeadOf(c[|c| - 1], next);
        if TokenOf(args[j], COMMA) then j > 0 && !TokenOf(args[j - 1], COMMA)
        else && IsExpression(args[j], Lead(args[j + 1..], atClose))
             && Lead(args[j..], atClose) != Some(RPAREN) && Lead(args[j..], atClose) != None
             && (Lead(args[j + 1..], atClose) == Some(COMMA) ==> j + 1 < |args| && TokenOf(args[j + 1], COMMA)))
  }

  /** (elem [","])*, position by position as in ArgumentAt, whose elements are
    * expressions: the same condition is written out there, because a
    * predicate of that cycle cannot be passed as a value. */
  predicate Arguments(s: seq<Shape>, elem: (Shape, Next) -> bool, next: Next) {
    forall i :: 0 <= i < |s| ==> ArgAt(s, i, elem, next)
  }

  predicate ArgAt(s: seq<Shape>, i: int, elem: (Shape, Next) -> bool, next: Next)
    requires 0 <= i < |s|
  {
    if TokenOf(s[i], COMMA) then i > 0 && !TokenOf(s[i - 1], COMMA)
    else && elem(s[i], Lead(s[i + 1..], next))
         && Lead(s[i..], next) != Some(RPAREN) && Lead(s[i..], next) != None
         && (Lead(s[i + 1..], next) == Some(COMMA) ==> i + 1 < |s| && TokenOf(s[i + 1], COMMA))
  }

  /** UNSIGNED_CONSTANT: unsigned integer | string, or an error element. */
  predicate IsUnsignedConstant(t: Shape, next: Next) {
    var c := Items(t);
    && IsNode(t, UnsignedConstant)
    && |c| == 1
    && (|| TokenOf(c[0], UNSIGNED_INTEGER) || TokenOf(c[0], STRING)
        || ErrorAdvanced(c[0], "UNSIGNED_CONSTANT", {UNSIGNED_INTEGER, STRING}, next))
  }

  // ---- statements ----

  /** STATEMENT_PART: compound statement */
  predicate IsStatementPart(t: Shape, next: Next) {
    var c := Items(t);
    IsNode(t, StatementPart) && |c| == 1 && IsCompoundStatement(c[0], next)
  }

  /** COMPOUND_STATEMENT: "BEGIN" statement (";" statement)* "END", the list
    * going on exactly while ";" follows a statement. */
  predicate IsCompoundStatement(t: Shape, next: Next)
    decreases t, 0
  {
    var c := Items(t);
    && IsNode(t, CompoundStatement)
    && |c| >= 3 && |c| % 2 == 1
    && (var atEnd := LeadOf(c[|c| - 1], next);
        && ExpectedToken(c[0], BEGIN, "BEGIN", Lead(c[1..|c| - 1], atEnd))
        && (forall i :: 1 <= i < |c| - 1 ==>
              if i % 2 == 1 then IsStatement(c[i], if i == |c| - 2 then atEnd else Some(SEMICOLON))
              else TokenOf(c[i], SEMICOLON))
        && atEnd != Some(SEMICOLON)
        && ExpectedToken(c[|c| - 1], END, "END", next))
  }

  /** STATEMENT: [label ":"] (structured statement | simple statement): the
    * body is structured exactly when it starts at one of StructuredStarts;
    * a label that is a token is followed by the ":" token. */
  predicate IsStatement(t: Shape, next: Next)
    decreases t, 0
  {
    var c := Items(t);
    && IsNode(t, Statement)
    && (|c| == 1 || |c| == 3)
    && (var atBody := LeadOf(c[|c| - 1], next);
        && (|c| == 3 ==>
              && IsLabel(c[0], LeadOf(c[1], atBody))
              && ExpectedToken(c[1], COLON, ":", atBody)
              && (Items(c[0])[0].Tok? ==> TokenOf(c[1], COLON)))
        && (if KindIn(atBody, StructuredStarts) then IsStructuredStatement(c[|c| - 1], next)
            else IsSimpleStatement(c[|c| - 1], next)))
  }

  /** The element tryParseStructuredStatement adds for the keyword it is at. */
  predicate IsStructuredStatement(t: Shape, next: Next)
    decreases t, 1
  {
    var k := LeadOf(t, next);
    || (k == Some(BEGIN) && IsCompoundStatement(t, next))
    || (k == Some(IF) && IsConditionStatement(t, next))
    || (k == Some(FOR) && IsForStatement(t, next))
    || (k == Some(WHILE) && IsWhileStatement(t, next))
    || (k == Some(REPEAT) && IsRepeatStatement(t, next))
  }

  /** CONDITION_STATEMENT: "IF" expression "THEN" statement ["ELSE" statement],
    * the else branch there exactly when ELSE follows the first statement. */
  predicate IsConditionStatement(t: Shape, next: Next)
    decreases t, 0
  {
    var c := Items(t);
    && IsNode(t, ConditionStatement)
    && (|c| == 4 || |c| == 6)
    && (var afterBody := if |c| == 6 then LeadOf(c[4], LeadOf(c[5], next)) else next;
        var afterThen := LeadOf(c[3], afterBody);
        var afterCond := LeadOf(c[2], afterThen);
        && ExpectedToken(c[0], IF, "IF", LeadOf(c[1], afterCond))
        && IsExpression(c[1], afterCond)
        && ExpectedToken(c[2], THEN, "THEN", afterThen)
        && IsStatement(c[3], afterBody)
        && (if |c| == 6 then TokenOf(c[4], ELSE) && IsStatement(c[5], next)
            else next != Some(ELSE)))
  }

  /** FOR_STATEMENT: "FOR" identifier token ":=" expression ("TO" | "DOWNTO")
    * expression "DO" statement */
  predicate IsForStatement(t: Shape, next: Next)
    decreases t, 0
  {
    var c := Items(t);
    && IsNode(t, ForStatement)
    && |c| == 8
    && (var afterDo := LeadOf(c[7], next);
        var afterTo := LeadOf(c[6], afterDo);
        var afterDirection := LeadOf(c[5], afterTo);
        var afterFrom := LeadOf(c[4], afterDirection);
        var afterAssign := LeadOf(c[3], afterFrom);
        var afterName := LeadOf(c[2], afterAssign);
        && ExpectedToken(c[0], FOR, "FOR", LeadOf(c[1], afterName))
        && ExpectedToken(c[1], IDENTIFIER, "IDENTIFIER", afterName)
        && ExpectedToken(c[2], ASSIGN, ":=", afterAssign)
        && IsExpression(c[3], afterFrom)
        && (|| TokenOf(c[4], TO) || TokenOf(c[4], DOWNTO)
            || ErrorAdvanced(c[4], "TO or DOWNTO", {TO, DOWNTO}, afterDirection))
        && IsExpression(c[5], afterTo)
        && ExpectedToken(c[6], DO, "DO", afterDo)
        && IsStatement(c[7], next))
  }

  /** WHILE_STATEMENT: "WHILE" expression "DO" statement */
  predicate IsWhileStatement(t: Shape, next: Next)
    decreases t, 0
  {
    var c := Items(t);
    && IsNode(t, WhileStatement)
    && |c| == 4
    && (var afterDo := LeadOf(c[3], next);
        var afterCond := LeadOf(c[2], afterDo);
        && ExpectedToken(c[0], WHILE, "WHILE", LeadOf(c[1], afterCond))
        && IsExpression(c[1], afterCond)
        && ExpectedToken(c[2], DO, "DO", afterDo)
        && IsStatement(c[3], next))
  }

  /** REPEAT_STATEMENT: "REPEAT" statement (";" statement)* "UNTIL" expression,
    * the list going on exactly while ";" follows a statement. */
  predicate IsRepeatStatement(t: Shape, next: Next)
    decreases t, 0
  {
    var c := Items(t);
    && IsNode(t, RepeatStatement)
    && |c| >= 4 && |c| % 2 == 0
    && (var afterUntil := LeadOf(c[|c| - 1], next);
        var atUntil := LeadOf(c[|c| - 2], afterUntil);
        && ExpectedToken(c[0], REPEAT, "REPEAT", Lead(c[1..|c| - 2], atUntil))
        && (forall i :: 1 <= i < |c| - 2 ==>
              if i % 2 == 1 then IsStatement(c[i], if i == |c| - 3 then atUntil else Some(SEMICOLON))
              else TokenOf(c[i], SEMICOLON))
        && atUntil != Some(SEMICOLON)
        && ExpectedToken(c[|c| - 2], UNTIL, "UNTIL", afterUntil)
        && IsExpression(c[|c| - 1], next))
  }

  /** LABEL: identifier token | unsigned integer, or, when neither is
    * current, the bare error "IDENTIFIER or UNSIGNED_INTEGER". */
  predicate IsLabel(t: Shape, next: Next) {
    var c := Items(t);
    && IsNode(t, Label)
    && |c| == 1
    && (|| TokenOf(c[0], IDENTIFIER)
        || TokenOf(c[0], UNSIGNED_INTEGER)
        || (&& c[0] == Err(Bare("IDENTIFIER or UNSIGNED_INTEGER"), [])
            && next != Some(IDENTIFIER) && next != Some(UNSIGNED_INTEGER)))
  }

  /** SIMPLE_STATEMENT: assignment | procedure statement; an assignment whose
    * name is a token has an ASSIGNMENTS token right after it. */
  predicate IsSimpleStatement(t: Shape, next: Next) {
    var c := Items(t);
    && IsNode(t, SimpleStatement)
    && |c| == 1
    && ((IsAssignment(c[0], next) && AssignmentAhead(c[0], next)) || IsProcedureStatement(c[0], next))
  }

  /** The token after the name of an assignment is in ASSIGNMENTS, when the
    * name is a token. */
  predicate AssignmentAhead(a: Shape, next: Next) {
    var c := Items(a);
    && |c| == 3
    && (TokenOf(c[0], IDENTIFIER) ==> KindIn(LeadOf(c[1], LeadOf(c[2], next)), Assignments))
  }

  /** ASSIGNMENT: identifier token assignment operator expression; when no
    * assignment operator is current, the bare error "ASSIGNMENT_OPERATOR"
    * stands for it. */
  predicate IsAssignment(t: Shape, next: Next) {
    var c := Items(t);
    && IsNode(t, Assignment)
    && |c| == 3
    && (var afterOperator := LeadOf(c[2], next);
        && ExpectedToken(c[0], IDENTIFIER, "IDENTIFIER", LeadOf(c[1], afterOperator))
        && (|| TokenIn(c[1], AssignmentOperators)
            || (&& c[1] == Err(Bare("ASSIGNMENT_OPERATOR"), [])
                && !KindIn(afterOperator, AssignmentOperators)))
        && IsExpression(c[2], next))
  }

  /** PROCEDURE_STATEMENT: identifier token [parameter list], the list there
    * exactly when "(" follows the name. */
  predicate IsProcedureStatement(t: Shape, next: Next) {
    var c := Items(t);
    && IsNode(t, ProcedureStatement)
    && (|c| == 1 || |c| == 2)
    && (var afterName := if |c| == 2 then LeadOf(c[1], next) else next;
        && ExpectedToken(c[0], IDENTIFIER, "IDENTIFIER", afterName)
        && (if |c| == 2 then afterName == Some(LPAREN) && IsParameterList(c[1], next)
            else next != Some(LPAREN)))
  }
}
