/**
 * Name resolution on the trees InnerParser builds. The parser adds the name
 * of a variable, function or procedure declaration as a bare IDENTIFIER
 * token (expectAdvance), never as an IDENTIFIER element (parseIdentifier), so
 * no entry of a parsed declaration part holds an IDENTIFIER element and no
 * identifier of a parsed file resolves.
 */
module PascalParsedReferences {
  import opened Options
  import opened PascalTokens
  import opened PascalSyntax
  import opened PascalGrammar
  import opened PascalReferences

  /** A significant child is kept, in order, by the shape view. */
  lemma {:induction false} StripMember(s: seq<Tree>, i: nat)
    requires i < |s| && !IsTrivia(s[i])
    ensures Strip(s[i]) in StripSeq(s)
    decreases |s|
  {
    if i > 0 {
      assert s[1..][i - 1] == s[i];
      StripMember(s[1..], i - 1);
    }
  }

  /** The shape of `t` lists what its children are, trivia left out. */
  lemma ItemsOfStrip(t: Tree)
    ensures Items(Strip(t)) == StripSeq(Children(t))
  {
  }

  /** No significant child of kind `k`: findChildByType(k) finds nothing. */
  predicate NoChild(x: Shape, k: NodeKind) {
    forall y :: y in Items(x) ==> !IsNode(y, k)
  }

  lemma NoChildFindsNothing(t: Tree, k: NodeKind)
    requires NoChild(Strip(t), k)
    ensures FindChildByType(t, k).None?
  {
    var cs := Children(t);
    ItemsOfStrip(t);
    forall j | 0 <= j < |cs|
      ensures !HasKind(cs[j], k)
    {
      if HasKind(cs[j], k) {
        StripMember(cs, j);
      }
    }
  }

  /** What findChildByType(k) finds is a significant child of kind `k`. */
  lemma FoundIsItem(t: Tree, k: NodeKind)
    requires FindChildByType(t, k).Some?
    ensures Strip(FindChildByType(t, k).value) in Items(Strip(t))
    ensures IsNode(Strip(FindChildByType(t, k).value), k)
  {
    var cs := Children(t);
    var i :| 0 <= i < |cs| && cs[i] == FindChildByType(t, k).value;
    ItemsOfStrip(t);
    StripMember(cs, i);
  }

  /** A child of `t` is trivia or a significant child. */
  lemma ChildIsTriviaOrItem(t: Tree, i: nat)
    requires i < |Children(t)|
    ensures IsTrivia(Children(t)[i]) || Strip(Children(t)[i]) in Items(Strip(t))
  {
    ItemsOfStrip(t);
    if !IsTrivia(Children(t)[i]) {
      StripMember(Children(t), i);
    }
  }

  /** A token, or an error element over tokens only, has no element child. */
  lemma TokenLikeHasNoChild(x: Shape, k: NodeKind)
    requires x.Tok? || (x.Err? && forall i :: 0 <= i < |x.items| ==> x.items[i].Tok?)
    ensures NoChild(x, k)
  {
  }

  /** A variable declaration names its variable by a token. */
  lemma VariableDeclarationHasNoIdentifier(x: Shape, n: Next)
    requires IsVariableDeclaration(x, n)
    ensures NoChild(x, Identifier)
  {
    var c := Items(x);
    forall y | y in c
      ensures !IsNode(y, Identifier)
    {
      var i :| 0 <= i < |c| && c[i] == y;
      if i == 4 && |c| == 6 {
        assert IsNode(y, Expression);
      }
    }
  }

  /** So does a function or a procedure declaration. */
  lemma RoutineHasNoIdentifier(x: Shape, n: Next)
    requires IsFunctionDeclaration(x, n) || IsProcedureDeclaration(x, n)
    ensures NoChild(x, Identifier)
  {
    var c := Items(x);
    forall y | y in c
      ensures !IsNode(y, Identifier)
    {
      var i :| 0 <= i < |c| && c[i] == y;
      if i == 3 {
        assert IsNode(y, Block);
      }
    }
  }

  /** A trivia element holds one bad character token. */
  lemma TriviaHasNoChild(t: Tree, k: NodeKind)
    requires IsTrivia(t)
    ensures FindChildByType(t, k).None?
  {
    assert !HasKind(Children(t)[0], k);
  }

  /** An item of a variable declaration part is its VAR keyword or a
    * variable declaration. */
  lemma VariablePartItemHasNoIdentifier(x: Shape, n: Next, y: Shape)
    requires IsVariableDeclarationPart(x, n) && y in Items(x)
    ensures NoChild(y, Identifier)
  {
    var c := Items(x);
    var i :| 0 <= i < |c| && c[i] == y;
    if i == 0 {
      TokenLikeHasNoChild(y, Identifier);
    } else {
      assert c[1..][i - 1] == y;
      VariableDeclarationHasNoIdentifier(y, if i - 1 == |c| - 2 then n else Some(IDENTIFIER));
    }
  }

  /** No child of a parsed variable declaration part declares `name`. */
  lemma ParsedVariablesDeclareNothing(entry: Tree, name: string, n: Next)
    requires IsVariableDeclarationPart(Strip(entry), n)
    ensures FirstDeclaredVar(Children(entry), name).None?
  {
    var cs := Children(entry);
    forall j | 0 <= j < |cs|
      ensures DeclaredName(cs[j], name).None?
    {
      ChildIsTriviaOrItem(entry, j);
      if IsTrivia(cs[j]) {
        TriviaHasNoChild(cs[j], Identifier);
      } else {
        VariablePartItemHasNoIdentifier(Strip(entry), n, Strip(cs[j]));
        NoChildFindsNothing(cs[j], Identifier);
      }
    }
  }

  /** No entry of a parsed declaration part declares `name`. */
  lemma ParsedEntryDeclaresNothing(entry: Tree, name: string, n: Next)
    requires IsTrivia(entry) || IsDeclaration(Strip(entry), n)
    ensures EntryLookup(entry, name).None?
  {
    if HasKind(entry, VariableDeclarationPart) {
      ParsedVariablesDeclareNothing(entry, name, n);
    } else if HasKind(entry, ProcedureDeclaration) || HasKind(entry, FunctionDeclaration) {
      RoutineHasNoIdentifier(Strip(entry), n);
      NoChildFindsNothing(entry, Identifier);
    }
  }

  lemma ParsedDeclarationsDeclareNothing(declarations: Tree, name: string, n: Next)
    requires IsDeclarationPart(Strip(declarations), n)
    ensures FirstDeclaredEntity(Children(declarations), name).None?
  {
    var cs := Children(declarations);
    var c := Items(Strip(declarations));
    forall j | 0 <= j < |cs|
      ensures EntryLookup(cs[j], name).None?
    {
      ChildIsTriviaOrItem(declarations, j);
      if IsTrivia(cs[j]) {
        ParsedEntryDeclaresNothing(cs[j], name, n);
      } else {
        var i :| 0 <= i < |c| && c[i] == Strip(cs[j]);
        ParsedEntryDeclaresNothing(cs[j], name, Lead(c[i + 1..], n));
      }
    }
  }

  /** The items of a FILE: its header, ";", the uses clause when there is
    * one, its block and ".". */
  lemma FileItems(f: Shape, n: Next)
    requires IsFile(f, n)
    ensures var c := Items(f);
      && (|c| == 4 || |c| == 5)
      && IsNode(c[0], ProgramHeader) && !c[1].Elem? && !c[|c| - 1].Elem?
      && (|c| == 5 ==> IsNode(c[2], UsesClause))
      && IsBlock(c[|c| - 2], LeadOf(c[|c| - 1], n))
  {
  }

  /** The only BLOCK among the children of a FILE is its block. */
  lemma FileBlock(f: Shape, x: Shape, n: Next)
    requires IsFile(f, n) && x in Items(f) && IsNode(x, Block)
    ensures IsBlock(x, LeadOf(Items(f)[|Items(f)| - 1], n))
  {
    var c := Items(f);
    FileItems(f, n);
    OnlyBlockItem(c, x);
  }

  /** Among a header, ";", a uses clause, something and ".", a BLOCK can only
    * be the something. */
  lemma OnlyBlockItem(c: seq<Shape>, x: Shape)
    requires |c| == 4 || |c| == 5
    requires IsNode(c[0], ProgramHeader) && !c[1].Elem? && !c[|c| - 1].Elem?
    requires |c| == 5 ==> IsNode(c[2], UsesClause)
    requires x in c && IsNode(x, Block)
    ensures x == c[|c| - 2]
  {
    var i :| 0 <= i < |c| && c[i] == x;
  }

  /** The only DECLARATION_PART among the children of a BLOCK is its
    * declaration part. */
  lemma BlockDeclarations(b: Shape, x: Shape, n: Next)
    requires IsBlock(b, n) && x in Items(b) && IsNode(x, DeclarationPart)
    ensures IsDeclarationPart(x, LeadOf(Items(b)[|Items(b)| - 1], n))
  {
    var c := Items(b);
    var i :| 0 <= i < |c| && c[i] == x;
  }

  /** An identifier of a file InnerParser built resolves to nothing. */
  lemma ParsedFileResolvesNothing(root: Tree, name: string, n: Next)
    requires IsFile(Strip(root), n)
    ensures Resolve(root, name).None?
  {
    match FindChildByType(root, Block)
    case None =>
    case Some(block) =>
      FoundIsItem(root, Block);
      FileBlock(Strip(root), Strip(block), n);
      var atEnd := LeadOf(Items(Strip(root))[|Items(Strip(root))| - 1], n);
      match FindChildByType(block, DeclarationPart)
      case None =>
      case Some(declarations) =>
        FoundIsItem(block, DeclarationPart);
        BlockDeclarations(Strip(block), Strip(declarations), atEnd);
        ParsedDeclarationsDeclareNothing(declarations, name,
          LeadOf(Items(Strip(block))[|Items(Strip(block))| - 1], atEnd));
  }
}
