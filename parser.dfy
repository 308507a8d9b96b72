/**
 * InnerParser: the recursive-descent parser over a PsiBuilder. Every parse
 * method adds exactly one element (or, for the list methods, a run of
 * elements) to the children of the enclosing marker, covering exactly the
 * tokens it consumed. The element has the shape PascalGrammar gives it for
 * the token current when the method returns, and it starts at the token that
 * was current when the method was called.
 */
module PascalParser {
  import opened Options
  import opened PascalTokens
  import opened PascalSyntax
  import opened PascalGrammar
  import opened PsiBuilderModel
  import opened PascalShapes

  /** The error elements advance() leaves behind for a run of skipped
    * BAD_CHARACTER tokens, one per token. */
  function BadTrail(s: seq<Token>): (r: seq<Tree>)
    ensures |r| == |s|
    ensures forall i :: 0 <= i < |s| ==> r[i] == Error(UnexpectedCharacter, [Leaf(s[i])])
  {
    if |s| == 0 then []
    else BadTrail(s[..|s| - 1]) + [Error(UnexpectedCharacter, [Leaf(s[|s| - 1])])]
  }

  /** Every token of `s` is a BAD_CHARACTER. */
  ghost predicate AllBad(s: seq<Token>) {
    forall i :: 0 <= i < |s| ==> s[i].kind == BAD_CHARACTER
  }

  /** What advance() adds to the open marker while moving the cursor from `p`
    * to `q`: nothing at the end of the input, otherwise the token at `p`
    * followed by one error element per skipped bad character. */
  function Advanced(toks: seq<Token>, p: nat, q: nat): seq<Tree>
    requires p <= q <= |toks|
  {
    if p == q then [] else [Leaf(toks[p])] + BadTrail(toks[p + 1..q])
  }

  /** One more bad character skipped: the trail grows by its error element. */
  lemma SkippedOne(toks: seq<Token>, front: seq<Tree>, q: nat, p: nat, r: nat)
    requires q <= p < |toks| && r == p + 1
    requires AllBad(toks[q..p]) && toks[p].kind == BAD_CHARACTER
    ensures AllBad(toks[q..r])
    ensures front + BadTrail(toks[q..p]) + [Error(UnexpectedCharacter, [Leaf(toks[p])])]
            == front + BadTrail(toks[q..r])
  {
    assert toks[q..r] == toks[q..p] + [toks[p]];
    assert (toks[q..p] + [toks[p]])[..r - q - 1] == toks[q..p];
  }

  /** A token that is not a bad character right after `p` ends any run of
    * bad characters skipped from there. */
  lemma NoneSkipped(toks: seq<Token>, p: nat, q: nat)
    requires p < q <= |toks| && p + 1 < |toks| && toks[p + 1].kind != BAD_CHARACTER
    requires AllBad(toks[p + 1..q])
    ensures q == p + 1
  {
  }

  /** Since the pre-state the cursor only moved forward, the open marker
    * stayed the same, and its significant children grew by exactly `xs`,
    * which start at the token that was current then. */
  twostate predicate Grew(b: Builder, xs: seq<Shape>)
    reads b
  {
    && old(b.pos) <= b.pos
    && b.start == old(b.start)
    && b.items == old(b.items) + xs
    && Lead(xs, b.TokenType()) == old(b.TokenType())
  }

  /** Since the pre-state the open marker gained the one significant element
    * `t`, which starts at the token that was current then. */
  twostate predicate Added(b: Builder, t: Shape)
    reads b
  {
    && old(b.pos) <= b.pos
    && b.start == old(b.start)
    && b.items == old(b.items) + [t]
    && LeadOf(t, b.TokenType()) == old(b.TokenType())
  }

  class InnerParser {
    const builder: Builder

    constructor (builder: Builder)
      ensures this.builder == builder
    {
      this.builder := builder;
    }

    // ---- token helpers ----

    /** advance(): consume the current token, then skip every BAD_CHARACTER
      * token after it, each into its own "Unexpected character" error
      * element; returns the kind of the token consumed. */
    method Advance() returns (result: Option<TokenKind>)
      requires builder.Ready()
      modifies builder
      ensures builder.Ready() && !builder.At(BAD_CHARACTER)
      ensures result == old(builder.TokenType())
      ensures old(builder.pos) <= builder.pos
      ensures old(builder.Eof()) <==> builder.pos == old(builder.pos)
      ensures !old(builder.Eof()) ==> AllBad(builder.tokens[old(builder.pos) + 1..builder.pos])
      ensures builder.built == old(builder.built) + Advanced(builder.tokens, old(builder.pos), builder.pos)
      ensures Grew(builder, if old(builder.Eof()) then [] else [Tok(builder.tokens[old(builder.pos)])])
    {
      ghost var p, before := builder.pos, builder.built;
      result := builder.TokenType();
      builder.AdvanceLexer();
      ghost var lexed := builder.built;
      SkipBadCharacters();
      if p < |builder.tokens| {
        assert lexed == before + [Leaf(builder.tokens[p])];
        AppendAssoc(before, [Leaf(builder.tokens[p])], BadTrail(builder.tokens[p + 1..builder.pos]));
        LeadOne(Tok(builder.tokens[p]), builder.TokenType());
      } else {
        assert builder.built == before && FirstSeq([]) == None;
      }
    }

    /** The loop of advance(): wrap each BAD_CHARACTER token at the cursor in
      * its own "Unexpected character" error element. */
    method SkipBadCharacters()
      requires builder.Consistent()
      modifies builder
      ensures builder.Consistent() && !builder.At(BAD_CHARACTER)
      ensures builder.start == old(builder.start) && builder.items == old(builder.items)
      ensures old(builder.pos) <= builder.pos
      ensures AllBad(builder.tokens[old(builder.pos)..builder.pos])
      ensures builder.built == old(builder.built) + BadTrail(builder.tokens[old(builder.pos)..builder.pos])
    {
      ghost var q, front := builder.pos, builder.built;
      while builder.At(BAD_CHARACTER)
        invariant builder.Consistent() && builder.start == old(builder.start)
        invariant q <= builder.pos
        invariant AllBad(builder.tokens[q..builder.pos])
        invariant builder.built == front + BadTrail(builder.tokens[q..builder.pos])
        invariant builder.items == old(builder.items)
        decreases |builder.tokens| - builder.pos
      {
        ghost var p := builder.pos;
        var badMark := builder.Mark();
        builder.AdvanceLexer();
        assert builder.built == [Leaf(builder.tokens[p])];
        builder.ErrorMark(badMark, UnexpectedCharacter);
        SkippedOne(builder.tokens, front, q, p, builder.pos);
      }
    }

    /** errorAdvance(name): consume one token (with the bad characters after
      * it) into an error element "Expected <name>". The ghost `excluded`
      * names kinds the caller has already ruled out for the current token. */
    method ErrorAdvance(name: string, ghost excluded: set<TokenKind>) returns (ghost x: Shape)
      requires builder.Ready() && !builder.AtOneOf(excluded)
      modifies builder
      ensures builder.Ready() && !builder.At(BAD_CHARACTER)
      ensures Added(builder, x) && ErrorAdvanced(x, name, excluded, builder.TokenType())
      ensures old(builder.Eof()) <==> builder.pos == old(builder.pos)
      ensures x == Err(Expected(name), if old(builder.Eof()) then [] else [Tok(builder.tokens[old(builder.pos)])])
    {
      ghost var p := builder.pos;
      var m := builder.Mark();
      var _ := Advance();
      assert builder.built == Advanced(builder.tokens, p, builder.pos);
      assert builder.items == if p == |builder.tokens| then [] else [Tok(builder.tokens[p])];
      x := Err(Expected(name), builder.items);
      assert LeadOf(x, builder.TokenType()) == Lead(builder.items, builder.TokenType()) == old(builder.TokenType());
      builder.ErrorMark(m, Expected(name));
    }

    /** expectAdvance(kind, name): consume the current token when it has the
      * expected kind and answer true; otherwise add an empty error element
      * "Expected <name>", consume nothing and answer false. */
    method ExpectAdvance(expected: TokenKind, name: string) returns (ok: bool, ghost x: Shape)
      requires builder.Ready()
      modifies builder
      ensures builder.Ready()
      ensures ok == old(builder.At(expected))
      ensures ExpectedToken(x, expected, name, builder.TokenType()) && Added(builder, x)
      ensures ok ==>
                && old(builder.pos) < builder.pos && !builder.At(BAD_CHARACTER)
                && x == Tok(builder.tokens[old(builder.pos)]) && TokenOf(x, expected)
                && AllBad(builder.tokens[old(builder.pos) + 1..builder.pos])
      ensures !ok ==>
                && builder.pos == old(builder.pos)
                && x == Err(Expected(name), [])
    {
      if builder.At(expected) {
        x := Tok(builder.tokens[builder.pos]);
        var _ := Advance();
        LeadOne(x, builder.TokenType());
        ok := true;
      } else {
        builder.ReportError(Expected(name));
        ok, x := false, Err(Expected(name), []);
        assert FirstSeq([]) == None;
      }
    }

    // ---- program, header, uses clause ----

    /** parseFile: program header ";" [uses clause] block "." under one FILE
      * element; a missing ";" or "." leaves an error element in its place. */
    method ParseFile() returns (ghost t: Shape)
      requires builder.Ready()
      modifies builder
      ensures builder.Ready()
      ensures Added(builder, t) && IsFile(t, builder.TokenType())
      ensures old(builder.built) == [] ==> |builder.built| == 1 && builder.built[0].Node?
    {
      ghost var k0 := builder.TokenType();
      var m := builder.Mark();
      var header := ParseProgramHeader();
      ghost var k1 := builder.TokenType();
      var _, semi := ExpectAdvance(SEMICOLON, ";");
      ghost var k2 := builder.TokenType();
      ghost var front := builder.items;
      ghost var uses: seq<Shape> := [];
      if builder.At(USES) {
        var u := ParseUsesClause();
        uses := [u];
      }
      assert builder.items == front + uses;
      ghost var k3 := builder.TokenType();
      var block := ParseBlock();
      ghost var k4 := builder.TokenType();
      var _, dot := ExpectAdvance(DOT, ".");
      FileShape(builder.items, header, semi, uses, block, dot, k0, k1, k2, k3, k4, builder.TokenType());
      t := Elem(File, builder.items);
      builder.Done(m, File);
    }

    /** parseProgramHeader: "PROGRAM" identifier [program parameters] */
    method ParseProgramHeader() returns (ghost t: Shape)
      requires builder.Ready()
      modifies builder
      ensures builder.Ready()
      ensures Added(builder, t) && IsProgramHeader(t, builder.TokenType())
    {
      ghost var k0 := builder.TokenType();
      var m := builder.Mark();
      var _, kw := ExpectAdvance(PROGRAM, "PROGRAM");
      ghost var k1 := builder.TokenType();
      var id := ParseIdentifier();
      ghost var k2 := builder.TokenType();
      ghost var front := builder.items;
      ghost var params: seq<Shape> := [];
      if builder.At(LPAREN) {
        var p := ParseProgramParameters();
        params := [p];
      }
      assert builder.items == front + params;
      ProgramHeaderShape(builder.items, kw, id, params, k0, k1, k2, builder.TokenType());
      t := Elem(ProgramHeader, builder.items);
      builder.Done(m, ProgramHeader);
    }

    /** parseIdentifier: an IDENTIFIER element around the identifier token, or
      * around an "Expected IDENTIFIER" error when there is none. */
    method ParseIdentifier() returns (ghost t: Shape)
      requires builder.Ready()
      modifies builder
      ensures builder.Ready()
      ensures Added(builder, t) && IsIdentifier(t, builder.TokenType())
      ensures old(builder.At(IDENTIFIER)) ==>
                old(builder.pos) < builder.pos &&
                Items(t) == [Tok(builder.tokens[old(builder.pos)])]
      ensures !old(builder.At(IDENTIFIER)) ==>
                builder.pos == old(builder.pos) &&
                Items(t) == [Err(Expected("IDENTIFIER"), [])]
    {
      ghost var k0 := builder.TokenType();
      var m := builder.Mark();
      var _, x := ExpectAdvance(IDENTIFIER, "IDENTIFIER");
      IdentifierShape(builder.items, x, k0, builder.TokenType());
      t := Elem(Identifier, builder.items);
      builder.Done(m, Identifier);
    }

    /** parseProgramParameters: "(" [identifier list] ")" */
    method ParseProgramParameters() returns (ghost t: Shape)
      requires builder.Ready()
      modifies builder
      ensures builder.Ready()
      ensures Added(builder, t) && IsProgramParameters(t, builder.TokenType())
    {
      ghost var k0 := builder.TokenType();
      var m := builder.Mark();
      var _, open := ExpectAdvance(LPAREN, "(");
      ghost var k1 := builder.TokenType();
      ghost var front := builder.items;
      ghost var ids: seq<Shape> := [];
      if builder.At(IDENTIFIER) {
        ids := ParseIdentifierList();
      }
      assert builder.items == front + ids;
      ghost var k2 := builder.TokenType();
      var _, close := ExpectAdvance(RPAREN, ")");
      ProgramParametersShape(builder.items, open, ids, close, k0, k1, k2, builder.TokenType());
      t := Elem(ProgramParameters, builder.items);
      builder.Done(m, ProgramParameters);
    }

    /** parseIdentifierList: identifier ("," identifier)* */
    method ParseIdentifierList() returns (ghost xs: seq<Shape>)
      requires builder.Ready()
      modifies builder
      ensures builder.Ready() && !builder.At(COMMA)
      ensures Grew(builder, xs) && Separated(xs, IsIdentifier, COMMA, builder.TokenType())
    {
      ghost var front := builder.items;
      var first := ParseIdentifier();
      xs := [first];
      SeparatedOne(first, IsIdentifier, COMMA, builder.TokenType());
      while builder.At(COMMA)
        invariant builder.Ready()
        invariant old(builder.pos) <= builder.pos && builder.start == old(builder.start)
        invariant builder.items == front + xs && Separated(xs, IsIdentifier, COMMA, builder.TokenType())
        invariant Lead(xs, builder.TokenType()) == old(builder.TokenType())
        decreases |builder.tokens| - builder.pos
      {
        var _, comma := ExpectAdvance(COMMA, ",");
        var id := ParseIdentifier();
        SeparatedSnoc(xs, IsIdentifier, COMMA, comma, id, builder.TokenType());
        AppendPair(front, xs, comma, id);
        xs := xs + [comma, id];
      }
    }

    /** parseUsesClause: "USES" clause list ";" */
    method ParseUsesClause() returns (ghost t: Shape)
      requires builder.Ready()
      modifies builder
      ensures builder.Ready()
      ensures Added(builder, t) && IsUsesClause(t, builder.TokenType())
    {
      ghost var k0 := builder.TokenType();
      var m := builder.Mark();
      var _, kw := ExpectAdvance(USES, "USES");
      ghost var k1 := builder.TokenType();
      var clauses := ParseClauseList();
      ghost var k2 := builder.TokenType();
      var _, semi := ExpectAdvance(SEMICOLON, ";");
      UsesClauseShape(builder.items, kw, clauses, semi, k0, k1, k2, builder.TokenType());
      t := Elem(UsesClause, builder.items);
      builder.Done(m, UsesClause);
    }

    /** parseClauseList: clause ("," clause)* */
    method ParseClauseList() returns (ghost xs: seq<Shape>)
      requires builder.Ready()
      modifies builder
      ensures builder.Ready() && !builder.At(COMMA)
      ensures Grew(builder, xs) && Separated(xs, IsClause, COMMA, builder.TokenType())
    {
      ghost var front := builder.items;
      var first := ParseClause();
      xs := [first];
      SeparatedOne(first, IsClause, COMMA, builder.TokenType());
      while builder.At(COMMA)
        invariant builder.Ready()
        invariant old(builder.pos) <= builder.pos && builder.start == old(builder.start)
        invariant builder.items == front + xs && Separated(xs, IsClause, COMMA, builder.TokenType())
        invariant Lead(xs, builder.TokenType()) == old(builder.TokenType())
        decreases |builder.tokens| - builder.pos
      {
        var _, comma := ExpectAdvance(COMMA, ",");
        var clause := ParseClause();
        SeparatedSnoc(xs, IsClause, COMMA, comma, clause, builder.TokenType());
        AppendPair(front, xs, comma, clause);
        xs := xs + [comma, clause];
      }
    }

    /** parseClause: identifier token ["IN" string] */
    method ParseClause() returns (ghost t: Shape)
      requires builder.Ready()
      modifies builder
      ensures builder.Ready()
      ensures Added(builder, t) && IsClause(t, builder.TokenType())
    {
      ghost var k0 := builder.TokenType();
      var m := builder.Mark();
      var _, name := ExpectAdvance(IDENTIFIER, "IDENTIFIER");
      ghost var k1 := builder.TokenType();
      ghost var front := builder.items;
      ghost var rest: seq<Shape> := [];
      if builder.At(IN) {
        var _, kw := ExpectAdvance(IN, "IN");
        var _, path := ExpectAdvance(STRING, "STRING");
        AppendTwo(front, kw, path);
        rest := [kw, path];
      }
      assert builder.items == front + rest;
      ClauseShape(builder.items, name, rest, k0, k1, builder.TokenType());
      t := Elem(Clause, builder.items);
      builder.Done(m, Clause);
    }

    // ---- blocks and declarations ----

    /** parseBlock: [declaration part] statement part */
    method ParseBlock() returns (ghost t: Shape)
      requires builder.Ready()
      modifies builder
      ensures builder.Ready()
      ensures Added(builder, t) && IsBlock(t, builder.TokenType())
      decreases |builder.tokens| - builder.pos, 3
    {
      ghost var k0 := builder.TokenType();
      var m := builder.Mark();
      var decls := ParseDeclarationPart();
      ghost var k1 := builder.TokenType();
      if decls != [] {
        assert decls == [decls[0]];
        LeadOne(decls[0], k1);
        assert IsDeclarationPart(decls[0], k1) && LeadOf(decls[0], k1) == k0;
      } else {
        assert k1 == k0 && (k0 == Some(BEGIN) || k0 == None);
      }
      var body := ParseStatementPart();
      BlockShape(builder.items, decls, body, k0, k1, builder.TokenType());
      t := Elem(Block, builder.items);
      builder.Done(m, Block);
    }

    /** parseDeclarationPart: declarations until BEGIN, under one
      * DECLARATION_PART element when there is at least one (`flag`), and
      * nothing otherwise. The loop also stops at the end of the input. */
    method ParseDeclarationPart() returns (ghost part: seq<Shape>)
      requires builder.Ready()
      modifies builder
      ensures builder.Ready()
      ensures Grew(builder, part)
      ensures builder.At(BEGIN) || builder.Eof()
      ensures part == [] <==> old(builder.At(BEGIN) || builder.Eof())
      ensures part == [] ==> builder.pos == old(builder.pos)
      ensures part != [] ==> |part| == 1 && IsDeclarationPart(part[0], builder.TokenType())
      decreases |builder.tokens| - builder.pos, 2
    {
      var flag := false;
      var m := builder.Mark();
      ghost var decls: seq<Shape> := [];
      while !builder.At(BEGIN) && !builder.Eof()
        invariant builder.Ready() && builder.Innermost(m)
        invariant old(builder.pos) <= builder.pos
        invariant builder.items == decls
        invariant Run(decls, IsDeclaration, builder.TokenType())
        invariant Lead(decls, builder.TokenType()) == old(builder.TokenType())
        invariant flag <==> decls != []
        invariant !flag ==> builder.pos == old(builder.pos)
        invariant flag ==> !old(builder.At(BEGIN) || builder.Eof())
        decreases |builder.tokens| - builder.pos
      {
        flag := true;
        var d := ParseDeclaration();
        RunSnoc(decls, IsDeclaration, d, builder.TokenType());
        decls := decls + [d];
      }
      if flag {
        DeclarationPartShape(builder.items, builder.TokenType());
        part := [Elem(DeclarationPart, builder.items)];
        LeadOne(part[0], builder.TokenType());
        builder.Done(m, DeclarationPart);
      } else {
        part := [];
        builder.Drop(m);
      }
    }

    /** One pass of the loop of parseDeclarationPart as written (no end of
      * input test) once the input has ended: no keyword is current, so the
      * pass reports another "Expected LABEL, VAR, FUNCTION, PROCEDURE"
      * error element without consuming a token, and the loop condition (the
      * current token is not BEGIN) still holds, so the loop never ends. */
    method DeclarationPassAtEnd() returns (ghost d: Shape)
      requires builder.Ready() && builder.Eof()
      modifies builder
      ensures builder.Ready() && Added(builder, d)
      ensures d == Err(Expected("LABEL, VAR, FUNCTION, PROCEDURE"), [])
      ensures builder.pos == old(builder.pos) && !builder.At(BEGIN)
    {
      d := ErrorAdvance("LABEL, VAR, FUNCTION, PROCEDURE", {});
    }

    /** One pass of the loop of parseDeclarationPart, which runs while BEGIN is
      * not current: the declaration the current keyword opens, or the current
      * token skipped into the error element "Expected LABEL, VAR, FUNCTION,
      * PROCEDURE". */
    method ParseDeclaration() returns (ghost d: Shape)
      requires builder.Ready() && !builder.Eof() && !builder.At(BEGIN)
      modifies builder
      ensures builder.Ready()
      ensures Added(builder, d) && IsDeclaration(d, builder.TokenType())
      ensures old(builder.pos) < builder.pos
      decreases |builder.tokens| - builder.pos, 1
    {
      if builder.At(LABEL) {
        d := ParseLabelDeclarationPart();
      } else if builder.At(VAR) {
        d := ParseVariableDeclarationPart();
      } else if builder.At(FUNCTION) {
        d := ParseFunctionDeclaration();
      } else if builder.At(PROCEDURE) {
        d := ParseProcedureDeclaration();
      } else {
        d := ErrorAdvance("LABEL, VAR, FUNCTION, PROCEDURE", {LABEL, VAR, FUNCTION, PROCEDURE});
      }
    }

    /** parseFunctionDeclaration: "FUNCTION" identifier token ";" block */
    method ParseFunctionDeclaration() returns (ghost t: Shape)
      requires builder.Ready()
      modifies builder
      ensures builder.Ready()
      ensures Added(builder, t) && IsFunctionDeclaration(t, builder.TokenType())
      ensures old(builder.At(FUNCTION)) ==> old(builder.pos) < builder.pos
      decreases |builder.tokens| - builder.pos, if builder.At(FUNCTION) then 0 else 4
    {
      ghost var k0 := builder.TokenType();
      var m := builder.Mark();
      var _, kw := ExpectAdvance(FUNCTION, "FUNCTION");
      ghost var k1 := builder.TokenType();
      var _, name := ExpectAdvance(IDENTIFIER, "IDENTIFIER");
      ghost var k2 := builder.TokenType();
      var _, semi := ExpectAdvance(SEMICOLON, ";");
      ghost var k3 := builder.TokenType();
      var body := ParseBlock();
      FunctionDeclarationShape(builder.items, kw, name, semi, body, k0, k1, k2, k3, builder.TokenType());
      t := Elem(FunctionDeclaration, builder.items);
      builder.Done(m, FunctionDeclaration);
    }

    /** parseProcedureDeclaration: "PROCEDURE" identifier token ";" block */
    method ParseProcedureDeclaration() returns (ghost t: Shape)
      requires builder.Ready()
      modifies builder
      ensures builder.Ready()
      ensures Added(builder, t) && IsProcedureDeclaration(t, builder.TokenType())
      ensures old(builder.At(PROCEDURE)) ==> old(builder.pos) < builder.pos
      decreases |builder.tokens| - builder.pos, if builder.At(PROCEDURE) then 0 else 4
    {
      ghost var k0 := builder.TokenType();
      var m := builder.Mark();
      var _, kw := ExpectAdvance(PROCEDURE, "PROCEDURE");
      ghost var k1 := builder.TokenType();
      var _, name := ExpectAdvance(IDENTIFIER, "IDENTIFIER");
      ghost var k2 := builder.TokenType();
      var _, semi := ExpectAdvance(SEMICOLON, ";");
      ghost var k3 := builder.TokenType();
      var body := ParseBlock();
      ProcedureDeclarationShape(builder.items, kw, name, semi, body, k0, k1, k2, k3, builder.TokenType());
      t := Elem(ProcedureDeclaration, builder.items);
      builder.Done(m, ProcedureDeclaration);
    }

    /** parseLabelDeclarationPart: "LABEL" label list ";" */
    method ParseLabelDeclarationPart() returns (ghost t: Shape)
      requires builder.Ready()
      modifies builder
      ensures builder.Ready()
      ensures Added(builder, t) && IsLabelDeclarationPart(t, builder.TokenType())
      ensures old(builder.At(LABEL)) ==> old(builder.pos) < builder.pos
    {
      ghost var k0 := builder.TokenType();
      var m := builder.Mark();
      var _, kw := ExpectAdvance(LABEL, "LABEL");
      ghost var k1 := builder.TokenType();
      var labels := ParseLabelDeclarationList();
      ghost var k2 := builder.TokenType();
      var _, semi := ExpectAdvance(SEMICOLON, ";");
      LabelDeclarationPartShape(builder.items, kw, labels, semi, k0, k1, k2, builder.TokenType());
      t := Elem(LabelDeclarationPart, builder.items);
      builder.Done(m, LabelDeclarationPart);
    }

    /** parseLabelDeclarationList: label ("," label)* */
    method ParseLabelDeclarationList() returns (ghost xs: seq<Shape>)
      requires builder.Ready()
      modifies builder
      ensures builder.Ready() && !builder.At(COMMA)
      ensures Grew(builder, xs) && Separated(xs, IsLabel, COMMA, builder.TokenType())
    {
      ghost var front := builder.items;
      var first := ParseLabel();
      xs := [first];
      SeparatedOne(first, IsLabel, COMMA, builder.TokenType());
      while builder.At(COMMA)
        invariant builder.Ready()
        invariant old(builder.pos) <= builder.pos && builder.start == old(builder.start)
        invariant builder.items == front + xs && Separated(xs, IsLabel, COMMA, builder.TokenType())
        invariant Lead(xs, builder.TokenType()) == old(builder.TokenType())
        decreases |builder.tokens| - builder.pos
      {
        var _, comma := ExpectAdvance(COMMA, ",");
        var lab := ParseLabel();
        SeparatedSnoc(xs, IsLabel, COMMA, comma, lab, builder.TokenType());
        AppendPair(front, xs, comma, lab);
        xs := xs + [comma, lab];
      }
    }

    /** parseVariableDeclarationPart: "VAR" variable declaration list */
    method ParseVariableDeclarationPart() returns (ghost t: Shape)
      requires builder.Ready()
      modifies builder
      ensures builder.Ready()
      ensures Added(builder, t) && IsVariableDeclarationPart(t, builder.TokenType())
      ensures old(builder.At(VAR)) ==> old(builder.pos) < builder.pos
    {
      ghost var k0 := builder.TokenType();
      var m := builder.Mark();
      var _, kw := ExpectAdvance(VAR, "VAR");
      ghost var k1 := builder.TokenType();
      var decls := ParseVariableDeclarationList();
      VariableDeclarationPartShape(builder.items, kw, decls, k0, k1, builder.TokenType());
      t := Elem(VariableDeclarationPart, builder.items);
      builder.Done(m, VariableDeclarationPart);
    }

    /** parseVariableDeclarationList: variable declarations while the current
      * token is an identifier, at least one. */
    method ParseVariableDeclarationList() returns (ghost xs: seq<Shape>)
      requires builder.Ready()
      modifies builder
      ensures builder.Ready() && !builder.At(IDENTIFIER)
      ensures Grew(builder, xs) && IsVariableDeclarationList(xs, builder.TokenType())
    {
      ghost var front := builder.items;
      var first := ParseVariableDeclaration();
      xs := [first];
      LeadOne(first, builder.TokenType());
      while builder.At(IDENTIFIER)
        invariant builder.Ready()
        invariant old(builder.pos) <= builder.pos && builder.start == old(builder.start)
        invariant builder.items == front + xs && IsVariableDeclarationList(xs, builder.TokenType())
        invariant Lead(xs, builder.TokenType()) == old(builder.TokenType())
        decreases |builder.tokens| - builder.pos
      {
        var decl := ParseVariableDeclaration();
        VariableDeclarationsSnoc(xs, decl, builder.TokenType());
        xs := xs + [decl];
      }
    }

    /** parseVariableDeclaration: identifier token ":" type ["=" expression] ";"
      * where a token that names no type is skipped into an error element. */
    method ParseVariableDeclaration() returns (ghost t: Shape)
      requires builder.Ready()
      modifies builder
      ensures builder.Ready()
      ensures Added(builder, t) && IsVariableDeclaration(t, builder.TokenType())
      ensures old(builder.At(IDENTIFIER)) ==> old(builder.pos) < builder.pos
    {
      ghost var k0 := builder.TokenType();
      var m := builder.Mark();
      var _, name := ExpectAdvance(IDENTIFIER, "IDENTIFIER");
      ghost var k1 := builder.TokenType();
      var _, colon := ExpectAdvance(COLON, ":");
      ghost var k2 := builder.TokenType();
      var ty := ParseVariableType();
      ghost var k3 := builder.TokenType();
      var init := ParseVariableInitializer();
      ghost var k4 := builder.TokenType();
      var _, semi := ExpectAdvance(SEMICOLON, ";");
      VariableDeclarationShape(builder.items, name, colon, ty, init, semi, k0, k1, k2, k3, k4, builder.TokenType());
      t := Elem(VariableDeclaration, builder.items);
      builder.Done(m, VariableDeclaration);
    }

    /** The optional `"=" expression` of parseVariableDeclaration, parsed
      * when the current token is EQ. */
    method ParseVariableInitializer() returns (ghost init: seq<Shape>)
      requires builder.Ready()
      modifies builder
      ensures builder.Ready() && Grew(builder, init)
      ensures init != [] <==> old(builder.At(EQ))
      ensures init == [] || (|init| == 2 && TokenOf(init[0], EQ) && IsExpression(init[1], builder.TokenType()))
    {
      init := [];
      if builder.At(EQ) {
        var _, eq := ExpectAdvance(EQ, "EQ");
        var e := ParseExpression();
        AppendTwo(old(builder.items), eq, e);
        LeadTwo(eq, e, builder.TokenType());
        init := [eq, e];
      }
    }

    /** The type of parseVariableDeclaration: one of the four type keywords,
      * or the current token skipped into the error element
      * "Expected INTEGER, REAL, BOOLEAN, CHAR". */
    method ParseVariableType() returns (ghost ty: Shape)
      requires builder.Ready()
      modifies builder
      ensures builder.Ready()
      ensures Added(builder, ty)
      ensures TokenIn(ty, VariableTypes) ||
              ErrorAdvanced(ty, "INTEGER, REAL, BOOLEAN, CHAR", VariableTypes, builder.TokenType())
      ensures !old(builder.Eof()) ==> old(builder.pos) < builder.pos
      ensures old(builder.AtOneOf(VariableTypes)) ==> TokenOf(ty, old(builder.tokens[builder.pos].kind))
      ensures !old(builder.AtOneOf(VariableTypes)) ==>
                ErrorAdvanced(ty, "INTEGER, REAL, BOOLEAN, CHAR", VariableTypes, builder.TokenType())
    {
      if builder.At(INTEGER) {
        var _, x := ExpectAdvance(INTEGER, "INTEGER");
        ty := x;
      } else if builder.At(REAL) {
        var _, x := ExpectAdvance(REAL, "REAL");
        ty := x;
      } else if builder.At(BOOLEAN) {
        var _, x := ExpectAdvance(BOOLEAN, "BOOLEAN");
        ty := x;
      } else if builder.At(CHAR) {
        var _, x := ExpectAdvance(CHAR, "CHAR");
        ty := x;
      } else {
        ty := ErrorAdvance("INTEGER, REAL, BOOLEAN, CHAR", VariableTypes);
      }
    }

    // ---- expressions ----

    /** parseExpression: simple expression [relational operator simple
      * expression]; a second relational operator is left to the caller. */
    method ParseExpression() returns (ghost t: Shape)
      requires builder.Ready()
      modifies builder
      ensures builder.Ready()
      ensures Added(builder, t) && IsExpression(t, builder.TokenType())
      ensures !old(builder.Eof()) ==> old(builder.pos) < builder.pos
      ensures |Items(t)| == 1 ==> !builder.AtOneOf(SimpleExpressionOperators)
      decreases |builder.tokens| - builder.pos, 4
    {
      ghost var k0 := builder.TokenType();
      var m := builder.Mark();
      var left := ParseSimpleExpression();
      ghost var k1 := builder.TokenType();
      ghost var front := builder.items;
      ghost var rest: seq<Shape> := [];
      if builder.AtOneOf(SimpleExpressionOperators) {
        var op := ParseSimpleExpressionOperator();
        var right := ParseSimpleExpression();
        AppendTwo(front, op, right);
        rest := [op, right];
      }
      assert builder.items == front + rest;
      ExpressionShape(builder.items, left, rest, k0, k1, builder.TokenType());
      t := Elem(Expression, builder.items);
      builder.Done(m, Expression);
    }

    /** parseSimpleExpressionOperator: one relational operator token, or the
      * current token skipped into an error element. */
    method ParseSimpleExpressionOperator() returns (ghost t: Shape)
      requires builder.Ready()
      modifies builder
      ensures builder.Ready()
      ensures Added(builder, t) && IsNode(t, SimpleExpressionOperator)
      ensures old(builder.AtOneOf(SimpleExpressionOperators)) ==>
                IsSimpleExpressionOperator(t) && old(builder.pos) < builder.pos
      ensures !old(builder.AtOneOf(SimpleExpressionOperators)) ==>
                && |Items(t)| == 1
                && ErrorAdvanced(Items(t)[0], "SIMPLE_EXPRESSION_OPERATOR", SimpleExpressionOperators,
                                 builder.TokenType())
    {
      var m := builder.Mark();
      var x := ParseRelationalOperator();
      assert builder.items == [x];
      if TokenIn(x, SimpleExpressionOperators) {
        OperatorShape(builder.items, SimpleExpressionOperator, SimpleExpressionOperators, x, builder.TokenType());
      } else {
        LeadOne(x, builder.TokenType());
        LeadOfNode(SimpleExpressionOperator, builder.items, builder.TokenType());
      }
      t := Elem(SimpleExpressionOperator, builder.items);
      builder.Done(m, SimpleExpressionOperator);
    }

    /** The if-chain of parseSimpleExpressionOperator: the relational operator
      * token at the cursor, or the current token skipped into the error
      * element "Expected SIMPLE_EXPRESSION_OPERATOR". */
    method ParseRelationalOperator() returns (ghost x: Shape)
      requires builder.Ready()
      modifies builder
      ensures builder.Ready() && Added(builder, x)
      ensures old(builder.AtOneOf(SimpleExpressionOperators)) ==>
                TokenOf(x, old(builder.tokens[builder.pos].kind)) && old(builder.pos) < builder.pos
      ensures !old(builder.AtOneOf(SimpleExpressionOperators)) ==>
                ErrorAdvanced(x, "SIMPLE_EXPRESSION_OPERATOR", SimpleExpressionOperators, builder.TokenType())
    {
      if builder.At(EQ) {
        var _, op := ExpectAdvance(EQ, "=");
        x := op;
      } else if builder.At(LQ) {
        var _, op := ExpectAdvance(LQ, "<=");
        x := op;
      } else if builder.At(GQ) {
        var _, op := ExpectAdvance(GQ, ">=");
        x := op;
      } else if builder.At(LT_GT) {
        var _, op := ExpectAdvance(LT_GT, "<>");
        x := op;
      } else if builder.At(GT) {
        var _, op := ExpectAdvance(GT, ">");
        x := op;
      } else if builder.At(LT) {
        var _, op := ExpectAdvance(LT, "<");
        x := op;
      } else if builder.At(IN) {
        var _, op := ExpectAdvance(IN, "IN");
        x := op;
      } else {
        x := ErrorAdvance("SIMPLE_EXPRESSION_OPERATOR", SimpleExpressionOperators);
      }
    }

    /** parseSimpleExpression: term [additive operator term]; a second
      * additive operator is left to the caller. */
    method ParseSimpleExpression() returns (ghost t: Shape)
      requires builder.Ready()
      modifies builder
      ensures builder.Ready()
      ensures Added(builder, t) && IsSimpleExpression(t, builder.TokenType())
      ensures !old(builder.Eof()) ==> old(builder.pos) < builder.pos
      ensures |Items(t)| == 1 ==> !builder.AtOneOf(TermOperators)
      decreases |builder.tokens| - builder.pos, 3
    {
      ghost var k0 := builder.TokenType();
      var m := builder.Mark();
      var left := ParseTerm();
      ghost var k1 := builder.TokenType();
      ghost var front := builder.items;
      ghost var rest: seq<Shape> := [];
      if builder.AtOneOf(TermOperators) {
        var op := ParseTermOperator();
        var right := ParseTerm();
        AppendTwo(front, op, right);
        rest := [op, right];
      }
      assert builder.items == front + rest;
      SimpleExpressionShape(builder.items, left, rest, k0, k1, builder.TokenType());
      t := Elem(SimpleExpression, builder.items);
      builder.Done(m, SimpleExpression);
    }

    /** parseTermOperator: one additive operator token; at any other token an
      * empty TERM_OPERATOR element. */
    method ParseTermOperator() returns (ghost t: Shape)
      requires builder.Ready()
      modifies builder
      ensures builder.Ready()
      ensures Added(builder, t) && IsNode(t, TermOperator)
      ensures old(builder.AtOneOf(TermOperators)) ==>
                IsTermOperator(t) && old(builder.pos) < builder.pos
      ensures !old(builder.AtOneOf(TermOperators)) ==>
                Items(t) == [] && builder.pos == old(builder.pos)
    {
      var m := builder.Mark();
      ghost var x: Shape;
      if builder.At(PLUS) {
        var _, op := ExpectAdvance(PLUS, "+");
        x := op;
      } else if builder.At(MINUS) {
        var _, op := ExpectAdvance(MINUS, "-");
        x := op;
      } else if builder.At(OR) {
        var _, op := ExpectAdvance(OR, "OR");
        x := op;
      } else if builder.At(XOR) {
        var _, op := ExpectAdvance(XOR, "XOR");
        x := op;
      }
      if old(builder.AtOneOf(TermOperators)) {
        OperatorShape(builder.items, TermOperator, TermOperators, x, builder.TokenType());
      } else {
        assert builder.items == [] && FirstSeq([]) == None;
      }
      t := Elem(TermOperator, builder.items);
      builder.Done(m, TermOperator);
    }

    /** parseTerm: factor [multiplicative operator factor]; a second
      * multiplicative operator is left to the caller. */
    method ParseTerm() returns (ghost t: Shape)
      requires builder.Ready()
      modifies builder
      ensures builder.Ready()
      ensures Added(builder, t) && IsTerm(t, builder.TokenType())
      ensures !old(builder.Eof()) ==> old(builder.pos) < builder.pos
      ensures |Items(t)| == 1 ==> !builder.AtOneOf(FactorOperators)
      decreases |builder.tokens| - builder.pos, 2
    {
      ghost var k0 := builder.TokenType();
      var m := builder.Mark();
      var left := ParseFactor();
      ghost var k1 := builder.TokenType();
      ghost var front := builder.items;
      ghost var rest: seq<Shape> := [];
      if builder.AtOneOf(FactorOperators) {
        var op := ParseFactorOperator();
        var right := ParseFactor();
        AppendTwo(front, op, right);
        rest := [op, right];
      }
      assert builder.items == front + rest;
      TermShape(builder.items, left, rest, k0, k1, builder.TokenType());
      t := Elem(Term, builder.items);
      builder.Done(m, Term);
    }

    /** parseFactorOperator: one multiplicative operator token; at any other
      * token an empty FACTOR_OPERATOR element. */
    method ParseFactorOperator() returns (ghost t: Shape)
      requires builder.Ready()
      modifies builder
      ensures builder.Ready()
      ensures Added(builder, t) && IsNode(t, FactorOperator)
      ensures old(builder.AtOneOf(FactorOperators)) ==>
                IsFactorOperator(t) && old(builder.pos) < builder.pos
      ensures !old(builder.AtOneOf(FactorOperators)) ==>
                Items(t) == [] && builder.pos == old(builder.pos)
    {
      var m := builder.Mark();
      ghost var x: Shape;
      if builder.At(ASTERISK) {
        var _, op := ExpectAdvance(ASTERISK, "*");
        x := op;
      } else if builder.At(DIV) {
        var _, op := ExpectAdvance(DIV, "DIV");
        x := op;
      } else if builder.At(SLASH) {
        var _, op := ExpectAdvance(SLASH, "/");
        x := op;
      } else if builder.At(MOD) {
        var _, op := ExpectAdvance(MOD, "MOD");
        x := op;
      } else if builder.At(AND) {
        var _, op := ExpectAdvance(AND, "AND");
        x := op;
      }
      if old(builder.AtOneOf(FactorOperators)) {
        OperatorShape(builder.items, FactorOperator, FactorOperators, x, builder.TokenType());
      } else {
        assert builder.items == [] && FirstSeq([]) == None;
      }
      t := Elem(FactorOperator, builder.items);
      builder.Done(m, FactorOperator);
    }

    /** parseFactor: one alternative chosen by the current token; every
      * alternative consumes a token unless the input has ended. */
    method ParseFactor() returns (ghost t: Shape)
      requires builder.Ready()
      modifies builder
      ensures builder.Ready()
      ensures Added(builder, t) && IsFactor(t, builder.TokenType())
      ensures !old(builder.Eof()) ==> old(builder.pos) < builder.pos
      decreases |builder.tokens| - builder.pos, 1
    {
      ghost var k0 := builder.TokenType();
      var m := builder.Mark();
      if builder.At(IDENTIFIER) {
        ParseCallFactor();
      } else if builder.At(NOT) {
        ParsePrefixFactor(NOT, "NOT");
      } else if builder.At(UNSIGNED_INTEGER) {
        var _, x := ExpectAdvance(UNSIGNED_INTEGER, "UNSIGNED_INTEGER");
        FactorIntegerShape(builder.items, x, builder.TokenType());
      } else if builder.At(LPAREN) {
        ParseParenthesisedFactor();
      } else if builder.At(PLUS) {
        ParsePrefixFactor(PLUS, "+");
      } else if builder.At(MINUS) {
        ParsePrefixFactor(MINUS, "-");
      } else {
        var c := ParseUnsignedConstant();
        FactorConstantShape(builder.items, c, k0, builder.TokenType());
      }
      t := Elem(Factor, builder.items);
      builder.Done(m, Factor);
    }

    /** The IDENTIFIER alternative of parseFactor, inside its marker: the
      * identifier token, then a parameter list when "(" follows. */
    method ParseCallFactor()
      requires builder.Ready() && builder.items == [] && builder.At(IDENTIFIER)
      modifies builder
      ensures builder.Ready() && builder.start == old(builder.start) && old(builder.pos) < builder.pos
      ensures IsFactor(Elem(Factor, builder.items), builder.TokenType())
      ensures LeadOf(Elem(Factor, builder.items), builder.TokenType()) == old(builder.TokenType())
      decreases |builder.tokens| - builder.pos, 0
    {
      var _, id := ExpectAdvance(IDENTIFIER, "IDENTIFIER");
      ghost var k1 := builder.TokenType();
      var args := ParseArguments();
      FactorCallShape(builder.items, id, args, k1, builder.TokenType());
    }

    /** The NOT, "+" and "-" alternatives of parseFactor, inside its marker:
      * the operator token, then a factor. */
    method ParsePrefixFactor(op: TokenKind, name: string)
      requires builder.Ready() && builder.items == [] && builder.At(op) && op in {NOT, PLUS, MINUS}
      modifies builder
      ensures builder.Ready() && builder.start == old(builder.start) && old(builder.pos) < builder.pos
      ensures IsFactor(Elem(Factor, builder.items), builder.TokenType())
      ensures LeadOf(Elem(Factor, builder.items), builder.TokenType()) == old(builder.TokenType())
      decreases |builder.tokens| - builder.pos, 0
    {
      var _, x := ExpectAdvance(op, name);
      ghost var k1 := builder.TokenType();
      var operand := ParseFactor();
      FactorPrefixShape(builder.items, x, operand, k1, builder.TokenType());
    }

    /** The "(" alternative of parseFactor, inside its marker: "(", an
      * expression, and a closing token expected with the kind LPAREN. */
    method ParseParenthesisedFactor()
      requires builder.Ready() && builder.items == [] && builder.At(LPAREN)
      modifies builder
      ensures builder.Ready() && builder.start == old(builder.start) && old(builder.pos) < builder.pos
      ensures IsFactor(Elem(Factor, builder.items), builder.TokenType())
      ensures LeadOf(Elem(Factor, builder.items), builder.TokenType()) == old(builder.TokenType())
      decreases |builder.tokens| - builder.pos, 0
    {
      var _, open := ExpectAdvance(LPAREN, "(");
      ghost var k1 := builder.TokenType();
      var e := ParseExpression();
      ghost var k2 := builder.TokenType();
      var _, close := ExpectAdvance(LPAREN, ")");
      FactorParenthesisedShape(builder.items, open, e, close, k1, k2, builder.TokenType());
    }

    /** The optional parameter list after the identifier of a factor or a
      * procedure statement, parsed when the current token is "(". */
    method ParseArguments() returns (ghost args: seq<Shape>)
      requires builder.Ready()
      modifies builder
      ensures builder.Ready() && Grew(builder, args)
      ensures args != [] <==> old(builder.At(LPAREN))
      ensures OptionalAt(args, IsParameterList, LPAREN, old(builder.TokenType()), builder.TokenType())
      decreases |builder.tokens| - builder.pos, 7
    {
      args := [];
      if builder.At(LPAREN) {
        var list := ParseParameterList();
        args := [list];
        LeadOne(list, builder.TokenType());
      }
    }

    /** parseParameterList: "(" then expressions, each optionally followed by
      * a comma, until ")" (or the end of the input), then ")". */
    method ParseParameterList() returns (ghost t: Shape)
      requires builder.Ready()
      modifies builder
      ensures builder.Ready()
      ensures Added(builder, t) && IsParameterList(t, builder.TokenType())
      decreases |builder.tokens| - builder.pos, 6
    {
      ghost var k0 := builder.TokenType();
      var m := builder.Mark();
      var _, open := ExpectAdvance(LPAREN, "(");
      ghost var k1 := builder.TokenType();
      ghost var front := builder.items;
      ghost var args: seq<Shape> := [];
      while !builder.At(RPAREN) && !builder.Eof()
        invariant builder.Ready() && builder.Innermost(m)
        invariant old(builder.pos) <= builder.pos
        invariant builder.items == front + args
        invariant Arguments(args, IsExpression, builder.TokenType()) && Lead(args, builder.TokenType()) == k1
        decreases |builder.tokens| - builder.pos
      {
        var xs := ParseArgument(args);
        AppendAssoc(front, args, xs);
        args := args + xs;
      }
      ghost var k2 := builder.TokenType();
      var _, close := ExpectAdvance(RPAREN, ")");
      ParameterListShape(builder.items, open, args, close, k0, k1, k2, builder.TokenType());
      t := Elem(ParameterList, builder.items);
      builder.Done(m, ParameterList);
    }

    /** One pass of the loop of parseParameterList: an expression, then the
      * comma after it when one is current. Appending what it parses keeps
      * `args` an argument list, and the list still starts where it did. */
    method ParseArgument(ghost args: seq<Shape>) returns (ghost xs: seq<Shape>)
      requires builder.Ready() && !builder.At(RPAREN) && !builder.Eof()
      requires Arguments(args, IsExpression, builder.TokenType())
      modifies builder
      ensures builder.Ready() && Grew(builder, xs) && old(builder.pos) < builder.pos
      ensures Arguments(args + xs, IsExpression, builder.TokenType())
      ensures Lead(args + xs, builder.TokenType()) == Lead(args, old(builder.TokenType()))
      decreases |builder.tokens| - builder.pos, 5
    {
      var e := ParseExpression();
      if builder.At(COMMA) {
        var _, comma := ExpectAdvance(COMMA, ",");
        ArgumentsSnocComma(args, IsExpression, e, comma, builder.TokenType());
        LeadTwo(e, comma, builder.TokenType());
        xs := [e, comma];
      } else {
        ArgumentsSnoc(args, IsExpression, e, builder.TokenType());
        LeadOne(e, builder.TokenType());
        xs := [e];
      }
    }

    /** One pass of the loop of parseParameterList as written (no end of
      * input test) once the input has ended: the expression consumes
      * nothing, no comma is current, and the loop condition (the current
      * token is not ")") still holds, so the loop never ends. */
    method ParameterListPassAtEnd() returns (ghost e: Shape)
      requires builder.Ready() && builder.Eof()
      modifies builder
      ensures builder.Ready() && Added(builder, e) && IsExpression(e, builder.TokenType())
      ensures builder.pos == old(builder.pos) && !builder.At(RPAREN)
    {
      e := ParseExpression();
    }

    /** parseUnsignedConstant: an unsigned integer or string token, or the
      * current token skipped into an error element. */
    method ParseUnsignedConstant() returns (ghost t: Shape)
      requires builder.Ready()
      modifies builder
      ensures builder.Ready()
      ensures Added(builder, t) && IsUnsignedConstant(t, builder.TokenType())
      ensures !old(builder.Eof()) ==> old(builder.pos) < builder.pos
    {
      ghost var k0 := builder.TokenType();
      var m := builder.Mark();
      ghost var x: Shape;
      if builder.At(UNSIGNED_INTEGER) {
        var _, c := ExpectAdvance(UNSIGNED_INTEGER, "UNSIGNED_NUMBER");
        x := c;
      } else if builder.At(STRING) {
        var _, c := ExpectAdvance(STRING, "STRING");
        x := c;
      } else {
        x := ErrorAdvance("UNSIGNED_CONSTANT", {UNSIGNED_INTEGER, STRING});
      }
      UnsignedConstantShape(builder.items, x, k0, builder.TokenType());
      t := Elem(UnsignedConstant, builder.items);
      builder.Done(m, UnsignedConstant);
    }

    // ---- statements ----

    /** parseStatementPart: compound statement */
    method ParseStatementPart() returns (ghost t: Shape)
      requires builder.Ready()
      modifies builder
      ensures builder.Ready()
      ensures Added(builder, t) && IsStatementPart(t, builder.TokenType())
    {
      var m := builder.Mark();
      var body := ParseCompoundStatement();
      StatementPartShape(builder.items, body, builder.TokenType());
      t := Elem(StatementPart, builder.items);
      builder.Done(m, StatementPart);
    }

    /** parseCompoundStatement: "BEGIN" statement list "END" */
    method ParseCompoundStatement() returns (ghost t: Shape)
      requires builder.Ready()
      modifies builder
      ensures builder.Ready()
      ensures Added(builder, t) && IsCompoundStatement(t, builder.TokenType())
      decreases |builder.tokens| - builder.pos, if builder.At(BEGIN) then 0 else 6
    {
      ghost var k0 := builder.TokenType();
      var m := builder.Mark();
      var _, kw := ExpectAdvance(BEGIN, "BEGIN");
      ghost var k1 := builder.TokenType();
      var stmts := ParseStatementList();
      ghost var k2 := builder.TokenType();
      var _, end := ExpectAdvance(END, "END");
      CompoundStatementShape(builder.items, kw, stmts, end, k0, k1, k2, builder.TokenType());
      t := Elem(CompoundStatement, builder.items);
      builder.Done(m, CompoundStatement);
    }

    /** parseStatementList: statement (";" statement)* */
    method ParseStatementList() returns (ghost xs: seq<Shape>)
      requires builder.Ready()
      modifies builder
      ensures builder.Ready() && !builder.At(SEMICOLON)
      ensures Grew(builder, xs) && Separated(xs, IsStatement, SEMICOLON, builder.TokenType())
      decreases |builder.tokens| - builder.pos, 5
    {
      ghost var front := builder.items;
      var first := ParseStatement();
      xs := [first];
      SeparatedOne(first, IsStatement, SEMICOLON, builder.TokenType());
      while builder.At(SEMICOLON)
        invariant builder.Ready()
        invariant old(builder.pos) <= builder.pos && builder.start == old(builder.start)
        invariant builder.items == front + xs && Separated(xs, IsStatement, SEMICOLON, builder.TokenType())
        invariant Lead(xs, builder.TokenType()) == old(builder.TokenType())
        decreases |builder.tokens| - builder.pos
      {
        var _, semi := ExpectAdvance(SEMICOLON, ";");
        var s := ParseStatement();
        SeparatedSnoc(xs, IsStatement, SEMICOLON, semi, s, builder.TokenType());
        AppendPair(front, xs, semi, s);
        xs := xs + [semi, s];
      }
    }

    /** parseStatement: [label ":"] then a structured statement, or a simple
      * statement when none starts here. The label is there exactly when the
      * token after the current one is ":". */
    method ParseStatement() returns (ghost t: Shape)
      requires builder.Ready()
      modifies builder
      ensures builder.Ready()
      ensures Added(builder, t) && IsStatement(t, builder.TokenType())
      ensures IsNode(Items(t)[0], Label) <==> old(builder.LookAhead()) == Some(COLON)
      decreases |builder.tokens| - builder.pos, 4
    {
      ghost var k0 := builder.TokenType();
      ghost var labelled := builder.LookAhead() == Some(COLON);
      var m := builder.Mark();
      var prefix := ParseStatementLabel();
      assert prefix != [] <==> labelled;
      ghost var k1 := builder.TokenType();
      var body := ParseStatementBody();
      StatementShape(builder.items, prefix, body, k0, k1, builder.TokenType());
      t := Elem(Statement, builder.items);
      builder.Done(m, Statement);
    }

    /** The optional `label ":"` that opens a statement, parsed when the
      * token after the current one is a colon. A label that is a token is
      * followed directly by that colon. */
    method ParseStatementLabel() returns (ghost prefix: seq<Shape>)
      requires builder.Ready()
      modifies builder
      ensures builder.Ready() && Grew(builder, prefix)
      ensures prefix != [] <==> old(builder.LookAhead()) == Some(COLON)
      ensures || prefix == []
              || (&& |prefix| == 2
                  && IsLabel(prefix[0], LeadOf(prefix[1], builder.TokenType()))
                  && ExpectedToken(prefix[1], COLON, ":", builder.TokenType())
                  && (Items(prefix[0])[0].Tok? ==> TokenOf(prefix[1], COLON)))
    {
      prefix := [];
      if builder.LookAhead() == Some(COLON) {
        ghost var p := builder.pos;
        var lab := ParseLabel();
        if Items(lab)[0].Tok? {
          NoneSkipped(builder.tokens, p, builder.pos);
        }
        var _, colon := ExpectAdvance(COLON, ":");
        AppendTwo(old(builder.items), lab, colon);
        LeadTwo(lab, colon, builder.TokenType());
        prefix := [lab, colon];
      }
    }

    /** The body of parseStatement: a structured statement when the current
      * keyword opens one, a simple statement otherwise. */
    method ParseStatementBody() returns (ghost body: Shape)
      requires builder.Ready()
      modifies builder
      ensures builder.Ready() && Added(builder, body)
      ensures if old(builder.AtOneOf(StructuredStarts)) then IsStructuredStatement(body, builder.TokenType())
              else IsSimpleStatement(body, builder.TokenType())
      decreases |builder.tokens| - builder.pos, 3
    {
      var parsed, s := TryParseStructuredStatement();
      body := s;
      if !parsed {
        body := ParseSimpleStatement();
      }
    }

    /** tryParseStructuredStatement: parse the structured statement that the
      * current keyword opens and answer true, or change nothing and answer
      * false when the current token opens none. */
    method TryParseStructuredStatement() returns (parsed: bool, ghost s: Shape)
      requires builder.Ready()
      modifies builder
      ensures builder.Ready()
      ensures parsed == old(builder.AtOneOf(StructuredStarts))
      ensures parsed ==> Added(builder, s) && IsStructuredStatement(s, builder.TokenType())
      ensures !parsed ==> unchanged(builder)
      decreases |builder.tokens| - builder.pos, 2
    {
      parsed := true;
      if builder.At(BEGIN) {
        s := ParseCompoundStatement();
      } else if builder.At(IF) {
        s := ParseConditionStatement();
      } else if builder.At(FOR) {
        s := ParseForStatement();
      } else if builder.At(WHILE) {
        s := ParseWhileStatement();
      } else if builder.At(REPEAT) {
        s := ParseRepeatStatement();
      } else {
        parsed, s := false, Elem(Statement, []);
      }
    }

    /** parseForStatement: "FOR" identifier token ":=" expression
      * ("TO" | "DOWNTO") expression "DO" statement, where a token that is
      * neither direction is skipped into an error element. */
    method ParseForStatement() returns (ghost t: Shape)
      requires builder.Ready()
      modifies builder
      ensures builder.Ready()
      ensures Added(builder, t) && IsForStatement(t, builder.TokenType())
      decreases |builder.tokens| - builder.pos, if builder.At(FOR) then 0 else 6
    {
      ghost var k0 := builder.TokenType();
      var m := builder.Mark();
      var _, kw := ExpectAdvance(FOR, "FOR");
      ghost var k1 := builder.TokenType();
      var _, id := ExpectAdvance(IDENTIFIER, "IDENTIFIER");
      ghost var k2 := builder.TokenType();
      var _, assign := ExpectAdvance(ASSIGN, ":=");
      ghost var k3 := builder.TokenType();
      var from := ParseExpression();
      ghost var k4 := builder.TokenType();
      var dir := ParseForDirection();
      ghost var k5 := builder.TokenType();
      var to := ParseExpression();
      ghost var k6 := builder.TokenType();
      var _, doKw := ExpectAdvance(DO, "DO");
      ghost var k7 := builder.TokenType();
      var body := ParseStatement();
      ForStatementShape(builder.items, kw, id, assign, from, dir, to, doKw, body,
                        k0, k1, k2, k3, k4, k5, k6, k7, builder.TokenType());
      t := Elem(ForStatement, builder.items);
      builder.Done(m, ForStatement);
    }

    /** The direction of parseForStatement: TO, DOWNTO, or the current token
      * skipped into the error element "Expected TO or DOWNTO". */
    method ParseForDirection() returns (ghost dir: Shape)
      requires builder.Ready()
      modifies builder
      ensures builder.Ready() && Added(builder, dir)
      ensures TokenOf(dir, TO) <==> old(builder.At(TO))
      ensures TokenOf(dir, DOWNTO) <==> old(builder.At(DOWNTO))
      ensures !old(builder.At(TO) || builder.At(DOWNTO)) ==>
                ErrorAdvanced(dir, "TO or DOWNTO", {TO, DOWNTO}, builder.TokenType())
    {
      if builder.At(TO) {
        var _, x := ExpectAdvance(TO, "TO");
        dir := x;
      } else if builder.At(DOWNTO) {
        var _, x := ExpectAdvance(DOWNTO, "DOWNTO");
        dir := x;
      } else {
        dir := ErrorAdvance("TO or DOWNTO", {TO, DOWNTO});
      }
    }

    /** The optional `"ELSE" statement` of parseConditionStatement, parsed
      * when the current token is ELSE. */
    method ParseElseBranch() returns (ghost rest: seq<Shape>)
      requires builder.Ready()
      modifies builder
      ensures builder.Ready() && Grew(builder, rest)
      ensures rest != [] <==> old(builder.At(ELSE))
      ensures rest == [] || (|rest| == 2 && TokenOf(rest[0], ELSE) && IsStatement(rest[1], builder.TokenType()))
      decreases |builder.tokens| - builder.pos, 5
    {
      rest := [];
      if builder.At(ELSE) {
        var _, elseKw := ExpectAdvance(ELSE, "ELSE");
        var alt := ParseStatement();
        AppendTwo(old(builder.items), elseKw, alt);
        LeadTwo(elseKw, alt, builder.TokenType());
        rest := [elseKw, alt];
      }
    }

    /** parseConditionStatement: "IF" expression "THEN" statement
      * ["ELSE" statement] */
    method ParseConditionStatement() returns (ghost t: Shape)
      requires builder.Ready()
      modifies builder
      ensures builder.Ready()
      ensures Added(builder, t) && IsConditionStatement(t, builder.TokenType())
      decreases |builder.tokens| - builder.pos, if builder.At(IF) then 0 else 6
    {
      ghost var k0 := builder.TokenType();
      var m := builder.Mark();
      var _, kw := ExpectAdvance(IF, "IF");
      ghost var k1 := builder.TokenType();
      var cond := ParseExpression();
      ghost var k2 := builder.TokenType();
      var _, thenKw := ExpectAdvance(THEN, "THEN");
      ghost var k3 := builder.TokenType();
      var body := ParseStatement();
      ghost var k4 := builder.TokenType();
      var rest := ParseElseBranch();
      ConditionStatementShape(builder.items, kw, cond, thenKw, body, rest, k0, k1, k2, k3, k4, builder.TokenType());
      t := Elem(ConditionStatement, builder.items);
      builder.Done(m, ConditionStatement);
    }

    /** parseWhileStatement: "WHILE" expression "DO" statement */
    method ParseWhileStatement() returns (ghost t: Shape)
      requires builder.Ready()
      modifies builder
      ensures builder.Ready()
      ensures Added(builder, t) && IsWhileStatement(t, builder.TokenType())
      decreases |builder.tokens| - builder.pos, if builder.At(WHILE) then 0 else 6
    {
      ghost var k0 := builder.TokenType();
      var m := builder.Mark();
      var _, kw := ExpectAdvance(WHILE, "WHILE");
      ghost var k1 := builder.TokenType();
      var cond := ParseExpression();
      ghost var k2 := builder.TokenType();
      var _, doKw := ExpectAdvance(DO, "DO");
      ghost var k3 := builder.TokenType();
      var body := ParseStatement();
      WhileStatementShape(builder.items, kw, cond, doKw, body, k0, k1, k2, k3, builder.TokenType());
      t := Elem(WhileStatement, builder.items);
      builder.Done(m, WhileStatement);
    }

    /** parseRepeatStatement: "REPEAT" statement (";" statement)* "UNTIL"
      * expression; its loop over the statements is the one of
      * parseStatementList. */
    method ParseRepeatStatement() returns (ghost t: Shape)
      requires builder.Ready()
      modifies builder
      ensures builder.Ready()
      ensures Added(builder, t) && IsRepeatStatement(t, builder.TokenType())
      decreases |builder.tokens| - builder.pos, if builder.At(REPEAT) then 0 else 6
    {
      ghost var k0 := builder.TokenType();
      var m := builder.Mark();
      var _, kw := ExpectAdvance(REPEAT, "REPEAT");
      ghost var k1 := builder.TokenType();
      var stmts := ParseStatementList();
      ghost var k2 := builder.TokenType();
      var _, until := ExpectAdvance(UNTIL, "UNTIL");
      ghost var k3 := builder.TokenType();
      var cond := ParseExpression();
      RepeatStatementShape(builder.items, kw, stmts, until, cond, k0, k1, k2, k3, builder.TokenType());
      t := Elem(RepeatStatement, builder.items);
      builder.Done(m, RepeatStatement);
    }

    /** parseLabel: an identifier or unsigned integer token; otherwise the
      * error "IDENTIFIER or UNSIGNED_INTEGER", consuming nothing. */
    method ParseLabel() returns (ghost t: Shape)
      requires builder.Ready()
      modifies builder
      ensures builder.Ready()
      ensures Added(builder, t) && IsLabel(t, builder.TokenType())
      ensures Items(t)[0].Tok? <==> old(builder.At(IDENTIFIER) || builder.At(UNSIGNED_INTEGER))
      ensures Items(t)[0].Tok? ==>
                old(builder.pos) < builder.pos && AllBad(builder.tokens[old(builder.pos) + 1..builder.pos])
    {
      ghost var k0 := builder.TokenType();
      var m := builder.Mark();
      ghost var x: Shape;
      if builder.At(IDENTIFIER) {
        var _, c := ExpectAdvance(IDENTIFIER, "IDENTIFIER");
        x := c;
      } else if builder.At(UNSIGNED_INTEGER) {
        var _, c := ExpectAdvance(UNSIGNED_INTEGER, "UNSIGNED_INTEGER");
        x := c;
      } else {
        builder.ReportError(Bare("IDENTIFIER or UNSIGNED_INTEGER"));
        x := Err(Bare("IDENTIFIER or UNSIGNED_INTEGER"), []);
      }
      LabelShape(builder.items, x, k0, builder.TokenType());
      t := Elem(Label, builder.items);
      builder.Done(m, Label);
    }

    /** parseSimpleStatement: an assignment exactly when the token after the
      * current one is in ASSIGNMENTS, a procedure statement otherwise. */
    method ParseSimpleStatement() returns (ghost t: Shape)
      requires builder.Ready()
      modifies builder
      ensures builder.Ready()
      ensures Added(builder, t) && IsSimpleStatement(t, builder.TokenType())
      ensures IsNode(Items(t)[0], Assignment) <==> old(builder.NextIn(Assignments))
      ensures IsNode(Items(t)[0], ProcedureStatement) <==> !old(builder.NextIn(Assignments))
    {
      ghost var assigns := builder.NextIn(Assignments);
      var m := builder.Mark();
      var parsed, a := TryParseAssignment();
      ghost var body := a;
      if !parsed {
        body := ParseProcedureStatement();
      }
      assert builder.items == [body];
      assert IsNode(body, Assignment) <==> assigns;
      SimpleStatementShape(builder.items, body, builder.TokenType());
      t := Elem(SimpleStatement, builder.items);
      builder.Done(m, SimpleStatement);
    }

    /** tryParseAssignment: parse an assignment and answer true when the token
      * after the current one is in ASSIGNMENTS; otherwise change nothing. */
    method TryParseAssignment() returns (parsed: bool, ghost a: Shape)
      requires builder.Ready()
      modifies builder
      ensures builder.Ready()
      ensures parsed == old(builder.NextIn(Assignments))
      ensures parsed ==> && Added(builder, a) && IsAssignment(a, builder.TokenType())
                         && AssignmentAhead(a, builder.TokenType())
      ensures !parsed ==> unchanged(builder)
    {
      if builder.NextIn(Assignments) {
        a := ParseAssignment();
        parsed := true;
      } else {
        parsed, a := false, Elem(Assignment, []);
      }
    }

    /** parseAssignment: identifier token, assignment operator, expression; a
      * missing operator is the error "ASSIGNMENT_OPERATOR", consuming
      * nothing. When the token after the current one is an assignment
      * operator, an identifier token is followed directly by it. */
    method ParseAssignment() returns (ghost t: Shape)
      requires builder.Ready()
      modifies builder
      ensures builder.Ready()
      ensures Added(builder, t) && IsAssignment(t, builder.TokenType())
      ensures old(builder.NextIn(Assignments)) ==> AssignmentAhead(t, builder.TokenType())
    {
      ghost var k0 := builder.TokenType();
      ghost var p, ahead := builder.pos, builder.NextIn(Assignments);
      var m := builder.Mark();
      var okId, id := ExpectAdvance(IDENTIFIER, "IDENTIFIER");
      ghost var k1 := builder.TokenType();
      if okId && ahead {
        NoneSkipped(builder.tokens, p, builder.pos);
      }
      var op := ParseAssignmentOperator();
      ghost var k2 := builder.TokenType();
      var e := ParseExpression();
      ghost var k3 := builder.TokenType();
      AssignmentShape(builder.items, id, op, e, k0, k1, k2, k3);
      t := Elem(Assignment, builder.items);
      builder.Done(m, Assignment);
      assert builder.TokenType() == k3;
    }

    /** The operator of parseAssignment: one of the five assignment operator
      * tokens, or the bare error "ASSIGNMENT_OPERATOR" at the cursor. */
    method ParseAssignmentOperator() returns (ghost op: Shape)
      requires builder.Ready()
      modifies builder
      ensures builder.Ready() && Added(builder, op)
      ensures || TokenIn(op, AssignmentOperators)
              || (op == Err(Bare("ASSIGNMENT_OPERATOR"), []) && !KindIn(builder.TokenType(), AssignmentOperators))
      ensures old(builder.AtOneOf(AssignmentOperators)) ==>
                TokenOf(op, old(builder.tokens[builder.pos].kind)) && old(builder.pos) < builder.pos
      ensures !old(builder.AtOneOf(AssignmentOperators)) ==>
                op == Err(Bare("ASSIGNMENT_OPERATOR"), []) && builder.pos == old(builder.pos)
    {
      if builder.At(ASSIGN) {
        var _, x := ExpectAdvance(ASSIGN, ":=");
        op := x;
      } else if builder.At(PLUS_ASSIGN) {
        var _, x := ExpectAdvance(PLUS_ASSIGN, "+=");
        op := x;
      } else if builder.At(MINUS_ASSIGN) {
        var _, x := ExpectAdvance(MINUS_ASSIGN, "-=");
        op := x;
      } else if builder.At(ASTERISK_ASSIGN) {
        var _, x := ExpectAdvance(ASTERISK_ASSIGN, "*=");
        op := x;
      } else if builder.At(DIVIDE_ASSIGN) {
        var _, x := ExpectAdvance(DIVIDE_ASSIGN, "/=");
        op := x;
      } else {
        builder.ReportError(Bare("ASSIGNMENT_OPERATOR"));
        op := Err(Bare("ASSIGNMENT_OPERATOR"), []);
      }
    }

    /** parseProcedureStatement: identifier token [parameter list] */
    method ParseProcedureStatement() returns (ghost t: Shape)
      requires builder.Ready()
      modifies builder
      ensures builder.Ready()
      ensures Added(builder, t) && IsProcedureStatement(t, builder.TokenType())
    {
      ghost var k0 := builder.TokenType();
      var m := builder.Mark();
      var _, id := ExpectAdvance(IDENTIFIER, "IDENTIFIER");
      ghost var k1 := builder.TokenType();
      var args := ParseArguments();
      ProcedureStatementShape(builder.items, id, args, k0, k1, builder.TokenType());
      t := Elem(ProcedureStatement, builder.items);
      builder.Done(m, ProcedureStatement);
    }
  }

  /** Appending two elements one at a time is appending the pair. */
  lemma AppendTwo<T>(a: seq<T>, x: T, y: T)
    ensures a + [x] + [y] == a + [x, y]
  {
  }

  /** ... also after a run of elements. */
  lemma AppendPair<T>(a: seq<T>, b: seq<T>, x: T, y: T)
    ensures a + b + [x] + [y] == a + (b + [x, y])
  {
  }

  /** Appending is associative. */
  lemma AppendAssoc<T>(a: seq<T>, b: seq<T>, c: seq<T>)
    ensures a + b + c == a + (b + c)
  {
  }

  /** PascalParser.parse: a fresh builder over the tokens, then parseFile. The
    * root has the shape of a FILE element for the token after the ones it
    * consumed, it starts at the first token, and its leaves are exactly the
    * tokens consumed, in order. */
  method Parse(tokens: seq<Token>) returns (root: Tree, consumed: nat)
    ensures consumed <= |tokens| && Leaves(root) == tokens[..consumed]
    ensures IsFile(Strip(root), if consumed < |tokens| then Some(tokens[consumed].kind) else None)
    ensures LeadOf(Strip(root), if consumed < |tokens| then Some(tokens[consumed].kind) else None)
            == if |tokens| > 0 then Some(tokens[0].kind) else None
  {
    var builder := new Builder(tokens);
    var parser := new InnerParser(builder);
    var t := parser.ParseFile();
    root := builder.built[0];
    consumed := builder.pos;
    assert builder.built == [root];
    assert [root][1..] == [];
    assert builder.items == StripSeq([root]) == [Strip(root)] == [t];
    assert LeavesSeq([root]) == Leaves(root);
    assert builder.tokens[builder.start..consumed] == tokens[..consumed];
  }
}
