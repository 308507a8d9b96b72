/**
 * The tree the PsiBuilder produces: element types (PascalElementType),
 * error elements and token leaves, and its significant structure, over
 * which the grammar is stated.
 */
module PascalSyntax {
  import opened PascalTokens

  /** Every PascalElementType, numbered in declaration order. */
  newtype NodeKind = k: int | 0 <= k < 34

  const File: NodeKind := 0
  const StubFile: NodeKind := 1
  const ProgramHeader: NodeKind := 2
  const UsesClause: NodeKind := 3
  const ProgramParameters: NodeKind := 4
  const Identifier: NodeKind := 5
  const Clause: NodeKind := 6
  const Block: NodeKind := 7
  const DeclarationPart: NodeKind := 8
  const StatementPart: NodeKind := 9
  const CompoundStatement: NodeKind := 10
  const LabelDeclarationPart: NodeKind := 11
  const VariableDeclarationPart: NodeKind := 12
  const VariableDeclaration: NodeKind := 13
  const Statement: NodeKind := 14
  const Expression: NodeKind := 15
  const SimpleExpression: NodeKind := 16
  const SimpleExpressionOperator: NodeKind := 17
  const Term: NodeKind := 18
  const TermOperator: NodeKind := 19
  const Factor: NodeKind := 20
  const FactorOperator: NodeKind := 21
  const Label: NodeKind := 22
  const ParameterList: NodeKind := 23
  const UnsignedConstant: NodeKind := 24
  const SimpleStatement: NodeKind := 25
  const Assignment: NodeKind := 26
  const ProcedureStatement: NodeKind := 27
  const ForStatement: NodeKind := 28
  const WhileStatement: NodeKind := 29
  const RepeatStatement: NodeKind := 30
  const ConditionStatement: NodeKind := 31
  const FunctionDeclaration: NodeKind := 32
  const ProcedureDeclaration: NodeKind := 33

  /** The message of an error element: `Expected(name)` is the text
    * "Expected " + name, `UnexpectedCharacter` the text "Unexpected character",
    * and `Bare` a message reported without the "Expected " prefix. */
  datatype Message = Expected(name: string) | UnexpectedCharacter | Bare(text: string)

  function MessageText(m: Message): string {
    match m
    case Expected(name) => "Expected " + name
    case UnexpectedCharacter => "Unexpected character"
    case Bare(text) => text
  }

  /** A node of the built tree: a token leaf, a composite element, or an error
    * element (which may wrap the tokens it was reported on). */
  datatype Tree =
    | Leaf(token: Token)
    | Node(kind: NodeKind, children: seq<Tree>)
    | Error(message: Message, children: seq<Tree>)

  /** The error element advance() wraps around one skipped BAD_CHARACTER token. */
  predicate IsTrivia(t: Tree) {
    && t.Error? && t.message == UnexpectedCharacter
    && |t.children| == 1 && t.children[0].Leaf?
    && t.children[0].token.kind == BAD_CHARACTER
  }

  /** The significant structure of a tree: the same tree with every element
    * of a skipped bad character (IsTrivia) left out. The grammar is stated
    * over this view. */
  datatype Shape =
    | Tok(token: Token)
    | Elem(kind: NodeKind, items: seq<Shape>)
    | Err(message: Message, items: seq<Shape>)

  predicate IsNode(t: Shape, k: NodeKind) {
    t.Elem? && t.kind == k
  }

  /** The significant children of a shape. */
  function Items(t: Shape): seq<Shape> {
    if t.Tok? then [] else t.items
  }

  /** The shape of a tree. */
  function Strip(t: Tree): Shape
    decreases t
  {
    match t
    case Leaf(tok) => Tok(tok)
    case Node(kind, children) => Elem(kind, StripSeq(children))
    case Error(message, children) => Err(message, StripSeq(children))
  }

  /** The shapes of the significant trees of a sequence, in order. */
  function StripSeq(s: seq<Tree>): seq<Shape>
    decreases s
  {
    if |s| == 0 then []
    else (if IsTrivia(s[0]) then [] else [Strip(s[0])]) + StripSeq(s[1..])
  }

  /** The tokens under a tree, left to right. */
  function Leaves(t: Tree): seq<Token>
    decreases t
  {
    match t
    case Leaf(tok) => [tok]
    case Node(_, children) => LeavesSeq(children)
    case Error(_, children) => LeavesSeq(children)
  }

  function LeavesSeq(s: seq<Tree>): seq<Token>
    decreases s
  {
    if |s| == 0 then [] else Leaves(s[0]) + LeavesSeq(s[1..])
  }

  /** The text of a token sequence. */
  function TokensText(toks: seq<Token>): string {
    if |toks| == 0 then "" else toks[0].text + TokensText(toks[1..])
  }

  /** ASTNode.text: the text of the tokens under a tree. */
  function Text(t: Tree): string {
    TokensText(Leaves(t))
  }

  lemma {:induction false} StripSeqAppend(a: seq<Tree>, b: seq<Tree>)
    ensures StripSeq(a + b) == StripSeq(a) + StripSeq(b)
  {
    if a == [] {
      assert a + b == b;
    } else {
      assert (a + b)[1..] == a[1..] + b;
      StripSeqAppend(a[1..], b);
    }
  }

  lemma {:induction false} LeavesSeqAppend(a: seq<Tree>, b: seq<Tree>)
    ensures LeavesSeq(a + b) == LeavesSeq(a) + LeavesSeq(b)
  {
    if a == [] {
      assert a + b == b;
    } else {
      assert (a + b)[1..] == a[1..] + b;
      LeavesSeqAppend(a[1..], b);
    }
  }
}
