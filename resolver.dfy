/**
 * Name resolution of PascalRefIdentifier, the PSI element of an IDENTIFIER
 * element: from the identifier up to the root of the tree, into the
 * DECLARATION_PART of the root's BLOCK, and through its entries for a
 * variable, function or procedure whose IDENTIFIER element has the same text.
 *
 * A node of the tree is given by its path from the root (the child index at
 * each level); its treeParent is the node at the path without its last index.
 */
module PascalReferences {
  import opened Options
  import opened PascalSyntax

  /** ASTNode.getChildren(null): every child, tokens and error elements
    * included; a token has none. */
  function Children(t: Tree): seq<Tree> {
    if t.Leaf? then [] else t.children
  }

  /** The element type of `t` is the composite element type `k`. */
  predicate HasKind(t: Tree, k: NodeKind) {
    t.Node? && t.kind == k
  }

  /** The index of the first tree of kind `k` in `s`. */
  function FirstOfKind(s: seq<Tree>, k: NodeKind): (r: Option<nat>)
    ensures r.Some? ==> r.value < |s| && HasKind(s[r.value], k)
    ensures r.Some? ==> forall j :: 0 <= j < r.value ==> !HasKind(s[j], k)
    ensures r.None? <==> forall j :: 0 <= j < |s| ==> !HasKind(s[j], k)
  {
    if |s| == 0 then None
    else if HasKind(s[0], k) then Some(0)
    else match FirstOfKind(s[1..], k)
      case None => None
      case Some(i) => Some(i + 1)
  }

  /** ASTNode.findChildByType(k): the first child of `t` of kind `k`. */
  function FindChildByType(t: Tree, k: NodeKind): (r: Option<Tree>)
    ensures r.Some? ==> HasKind(r.value, k)
    ensures r.Some? ==> exists i :: 0 <= i < |Children(t)| && Children(t)[i] == r.value &&
                                    forall j :: 0 <= j < i ==> !HasKind(Children(t)[j], k)
    ensures r.None? <==> forall j :: 0 <= j < |Children(t)| ==> !HasKind(Children(t)[j], k)
  {
    match FirstOfKind(Children(t), k)
    case None => None
    case Some(i) => Some(Children(t)[i])
  }

  // ---- the node and the file node ----

  /** The node at `path` below `t`, if the path leads anywhere. */
  function Subtree(t: Tree, path: seq<nat>): Option<Tree>
    decreases |path|
  {
    if path == [] then Some(t)
    else if path[0] < |Children(t)| then Subtree(Children(t)[path[0]], path[1..])
    else None
  }

  predicate IsPath(t: Tree, path: seq<nat>) {
    Subtree(t, path).Some?
  }

  /** Every ancestor of a node is a node: a prefix of a path is a path. */
  lemma {:induction false} PathPrefix(t: Tree, path: seq<nat>, n: nat)
    requires IsPath(t, path) && n <= |path|
    ensures IsPath(t, path[..n])
    decreases |path|
  {
    if n > 0 {
      assert path[..n][1..] == path[1..][..n - 1];
      PathPrefix(Children(t)[path[0]], path[1..], n - 1);
    }
  }

  /** findFileNode: follow treeParent from the node at `path` until there is
    * none; that is the root. */
  method FindFileNode(root: Tree, path: seq<nat>) returns (file: Tree)
    requires IsPath(root, path)
    ensures file == root
  {
    var p := path;
    while |p| > 0
      invariant IsPath(root, p)
      decreases |p|
    {
      PathPrefix(root, p, |p| - 1);
      p := p[..|p| - 1];
    }
    file := Subtree(root, p).value;
  }

  /** findDeclarations: the DECLARATION_PART of the root's first BLOCK child,
    * if both exist. */
  function FindDeclarations(file: Tree): (r: Option<Tree>)
    ensures r.Some? ==> HasKind(r.value, DeclarationPart)
    ensures r.Some? ==> FindChildByType(file, Block).Some? &&
                        r.value in Children(FindChildByType(file, Block).value)
    ensures (forall j :: 0 <= j < |Children(file)| ==> !HasKind(Children(file)[j], Block)) ==> r.None?
    ensures r.None? <==> FindChildByType(file, Block).None? ||
                         FindChildByType(FindChildByType(file, Block).value, DeclarationPart).None?
    ensures r.Some? ==> r == FindChildByType(FindChildByType(file, Block).value, DeclarationPart)
  {
    match FindChildByType(file, Block)
    case None => None
    case Some(block) => FindChildByType(block, DeclarationPart)
  }

  // ---- the declared entities ----

  /** The first IDENTIFIER element child of `t`, when its text is `name`:
    * lookInDeclaredFunctionsOrProcedures, and the test lookInDeclaredVars
    * applies to each child of a variable declaration part. */
  function DeclaredName(t: Tree, name: string): (r: Option<Tree>)
    ensures r.Some? ==> r == FindChildByType(t, Identifier) && Text(r.value) == name
    ensures r.None? <==> (FindChildByType(t, Identifier).None? ||
                          Text(FindChildByType(t, Identifier).value) != name)
  {
    var identifier := FindChildByType(t, Identifier);
    if identifier.Some? && Text(identifier.value) == name then identifier else None
  }

  /** What lookInDeclaredVars answers for the children `cs` of a variable
    * declaration part: the first child whose identifier is `name`. */
  function FirstDeclaredVar(cs: seq<Tree>, name: string): (r: Option<Tree>)
    ensures r.Some? ==> HasKind(r.value, Identifier) && Text(r.value) == name
    ensures r.Some? ==> exists i :: 0 <= i < |cs| && DeclaredName(cs[i], name) == r &&
                                    forall j :: 0 <= j < i ==> DeclaredName(cs[j], name).None?
    ensures r.None? <==> forall j :: 0 <= j < |cs| ==> DeclaredName(cs[j], name).None?
  {
    if |cs| == 0 then None
    else if DeclaredName(cs[0], name).Some? then DeclaredName(cs[0], name)
    else FirstDeclaredVar(cs[1..], name)
  }

  /** lookInDeclaredVars: scan the children of a variable declaration part in
    * order and answer the first IDENTIFIER element whose text is `name`. */
  method LookInDeclaredVars(varsDeclaration: Tree, name: string) returns (r: Option<Tree>)
    ensures r == FirstDeclaredVar(Children(varsDeclaration), name)
  {
    var cs := Children(varsDeclaration);
    for i := 0 to |cs|
      invariant FirstDeclaredVar(cs, name) == FirstDeclaredVar(cs[i..], name)
    {
      assert cs[i..][1..] == cs[i + 1..];
      var identifier := FindChildByType(cs[i], Identifier);
      if identifier.Some? && Text(identifier.value) == name {
        return identifier;
      }
    }
    return None;
  }

  /** The entries lookInDeclaredEntities looks into. */
  predicate IsEntry(t: Tree) {
    HasKind(t, VariableDeclarationPart) || HasKind(t, ProcedureDeclaration) ||
    HasKind(t, FunctionDeclaration)
  }

  /** What one entry of a declaration part contributes: a variable
    * declaration part is searched child by child, a function or procedure
    * declaration by its own name, anything else gives nothing. */
  function EntryLookup(entry: Tree, name: string): (r: Option<Tree>)
    ensures !IsEntry(entry) ==> r.None?
    ensures r.Some? ==> HasKind(r.value, Identifier) && Text(r.value) == name
  {
    if HasKind(entry, VariableDeclarationPart) then FirstDeclaredVar(Children(entry), name)
    else if HasKind(entry, ProcedureDeclaration) || HasKind(entry, FunctionDeclaration) then
      DeclaredName(entry, name)
    else None
  }

  /** What lookInDeclaredEntities answers for the children `cs` of a
    * declaration part: the answer of the first entry that has one. */
  function FirstDeclaredEntity(cs: seq<Tree>, name: string): (r: Option<Tree>)
    ensures r.Some? ==> HasKind(r.value, Identifier) && Text(r.value) == name
    ensures r.Some? ==> exists i :: 0 <= i < |cs| && IsEntry(cs[i]) && EntryLookup(cs[i], name) == r &&
                                    forall j :: 0 <= j < i ==> EntryLookup(cs[j], name).None?
    ensures r.None? <==> forall j :: 0 <= j < |cs| ==> EntryLookup(cs[j], name).None?
  {
    if |cs| == 0 then None
    else if EntryLookup(cs[0], name).Some? then EntryLookup(cs[0], name)
    else FirstDeclaredEntity(cs[1..], name)
  }

  /** lookInDeclaredEntities: scan the entries of a declaration part in order;
    * the first variable declaration part, procedure or function declaration
    * that holds an IDENTIFIER element with text `name` gives the answer. */
  method LookInDeclaredEntities(declarations: Tree, name: string) returns (r: Option<Tree>)
    ensures r == FirstDeclaredEntity(Children(declarations), name)
  {
    var cs := Children(declarations);
    for i := 0 to |cs|
      invariant FirstDeclaredEntity(cs, name) == FirstDeclaredEntity(cs[i..], name)
    {
      assert cs[i..][1..] == cs[i + 1..];
      var identifier: Option<Tree> := None;
      var entity := cs[i];
      if HasKind(entity, VariableDeclarationPart) {
        identifier := LookInDeclaredVars(entity, name);
      } else if HasKind(entity, ProcedureDeclaration) {
        identifier := DeclaredName(entity, name);
      } else if HasKind(entity, FunctionDeclaration) {
        identifier := DeclaredName(entity, name);
      }
      if identifier.Some? {
        return identifier;
      }
    }
    return None;
  }

  /** The declaration an identifier with the text `name` refers to, in the
    * tree with root `file`. */
  function Resolve(file: Tree, name: string): (r: Option<Tree>)
    ensures r.Some? ==> HasKind(r.value, Identifier) && Text(r.value) == name
    ensures r.Some? ==> FindDeclarations(file).Some?
    ensures r.Some? ==> exists i :: 0 <= i < |Children(FindDeclarations(file).value)| &&
                                    var entry := Children(FindDeclarations(file).value)[i];
                                    IsEntry(entry) && EntryLookup(entry, name) == r &&
                                    forall j :: 0 <= j < i ==>
                                      EntryLookup(Children(FindDeclarations(file).value)[j], name).None?
    ensures FindDeclarations(file).Some? ==>
              (r.None? <==> forall j :: 0 <= j < |Children(FindDeclarations(file).value)| ==>
                                         EntryLookup(Children(FindDeclarations(file).value)[j], name).None?)
  {
    match FindDeclarations(file)
    case None => None
    case Some(declarations) => FirstDeclaredEntity(Children(declarations), name)
  }

  /** getReference: the IDENTIFIER element the identifier at `path` resolves
    * to, or None when there is no declaration part or no entry declares its
    * text. */
  method GetReference(root: Tree, path: seq<nat>) returns (r: Option<Tree>)
    requires IsPath(root, path)
    ensures r == Resolve(root, Text(Subtree(root, path).value))
  {
    var node := Subtree(root, path).value;
    var file := FindFileNode(root, path);
    var declarations := FindDeclarations(file);
    if declarations.None? {
      return None;
    }
    r := LookInDeclaredEntities(declarations.value, Text(node));
  }

  /** An element that is not a variable declaration part, a procedure or a
    * function declaration can be inserted anywhere among the entries without
    * changing the answer. */
  lemma {:induction false} NonEntryIrrelevant(a: seq<Tree>, x: Tree, b: seq<Tree>, name: string)
    requires !IsEntry(x)
    ensures FirstDeclaredEntity(a + [x] + b, name) == FirstDeclaredEntity(a + b, name)
  {
    if a == [] {
      assert [] + [x] + b == [x] + b && ([x] + b)[1..] == b && [] + b == b;
    } else {
      assert (a + [x] + b)[0] == a[0] && (a + b)[0] == a[0];
      assert (a + [x] + b)[1..] == a[1..] + [x] + b;
      assert (a + b)[1..] == a[1..] + b;
      NonEntryIrrelevant(a[1..], x, b, name);
    }
  }
}
