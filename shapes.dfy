/**
 * How the children a parse method adds, one call after another, give the
 * element the shape PascalGrammar describes. Each lemma takes the
 * significant children of the still-open marker (`items`), made of the parts
 * the method added in order, together with the kinds of the current token
 * between the parts (`k0` before the first, `next` after the last): a part
 * added between `k_i` and `k_i+1` starts at `k_i`, so `LeadOf(part, k_i+1)
 * == k_i`. The lemma concludes the shape, for the token that follows it, of
 * the element that marker.done wraps around them, and that the element
 * starts at `k0`.
 */
module PascalShapes {
  import opened Options
  import opened PascalTokens
  import opened PascalSyntax
  import opened PascalGrammar

  // ---- the children by index ----
  // A run of one-element appends starting from [] holds those elements at
  // consecutive indices, and starts where its first element starts when each
  // element starts where the one after it leaves the cursor.

  lemma ItemsOf1(s: seq<Shape>, a: Shape,
                 k0: Next, next: Next)
    requires s == [] + [a]
    requires LeadOf(a, next) == k0
    ensures |s| == 1 && s[0] == a
    ensures Lead(s, next) == k0
  {
    assert s == [a];
    LeadOne(a, next);
  }

  lemma ItemsOf2(s: seq<Shape>, a: Shape, b: Shape,
                 k0: Next, k1: Next, next: Next)
    requires s == [] + [a] + [b]
    requires LeadOf(a, k1) == k0 && LeadOf(b, next) == k1
    ensures |s| == 2 && s[0] == a && s[1] == b
    ensures Lead(s, next) == k0
  {
    ItemsOf1([] + [a], a, k0, k1);
    LeadSnoc([] + [a], b, next);
  }

  lemma ItemsOf3(s: seq<Shape>, a: Shape, b: Shape, c: Shape,
                 k0: Next, k1: Next, k2: Next, next: Next)
    requires s == [] + [a] + [b] + [c]
    requires LeadOf(a, k1) == k0 && LeadOf(b, k2) == k1 && LeadOf(c, next) == k2
    ensures |s| == 3 && s[0] == a && s[1] == b && s[2] == c
    ensures Lead(s, next) == k0
  {
    ItemsOf2([] + [a] + [b], a, b, k0, k1, k2);
    LeadSnoc([] + [a] + [b], c, next);
  }

  lemma ItemsOf4(s: seq<Shape>, a: Shape, b: Shape, c: Shape, d: Shape,
                 k0: Next, k1: Next, k2: Next, k3: Next, next: Next)
    requires s == [] + [a] + [b] + [c] + [d]
    requires LeadOf(a, k1) == k0 && LeadOf(b, k2) == k1 && LeadOf(c, k3) == k2 && LeadOf(d, next) == k3
    ensures |s| == 4 && s[0] == a && s[1] == b && s[2] == c && s[3] == d
    ensures Lead(s, next) == k0
  {
    ItemsOf3([] + [a] + [b] + [c], a, b, c, k0, k1, k2, k3);
    LeadSnoc([] + [a] + [b] + [c], d, next);
  }

  lemma ItemsOf5(s: seq<Shape>, a: Shape, b: Shape, c: Shape, d: Shape, e: Shape,
                 k0: Next, k1: Next, k2: Next, k3: Next, k4: Next, next: Next)
    requires s == [] + [a] + [b] + [c] + [d] + [e]
    requires LeadOf(a, k1) == k0 && LeadOf(b, k2) == k1 && LeadOf(c, k3) == k2 && LeadOf(d, k4) == k3
    requires LeadOf(e, next) == k4
    ensures |s| == 5 && s[0] == a && s[1] == b && s[2] == c && s[3] == d
    ensures s[4] == e
    ensures Lead(s, next) == k0
  {
    ItemsOf4([] + [a] + [b] + [c] + [d], a, b, c, d, k0, k1, k2, k3, k4);
    LeadSnoc([] + [a] + [b] + [c] + [d], e, next);
  }

  lemma ItemsOf6(s: seq<Shape>, a: Shape, b: Shape, c: Shape, d: Shape, e: Shape, f: Shape,
                 k0: Next, k1: Next, k2: Next, k3: Next, k4: Next, k5: Next, next: Next)
    requires s == [] + [a] + [b] + [c] + [d] + [e] + [f]
    requires LeadOf(a, k1) == k0 && LeadOf(b, k2) == k1 && LeadOf(c, k3) == k2 && LeadOf(d, k4) == k3
    requires LeadOf(e, k5) == k4 && LeadOf(f, next) == k5
    ensures |s| == 6 && s[0] == a && s[1] == b && s[2] == c && s[3] == d
    ensures s[4] == e && s[5] == f
    ensures Lead(s, next) == k0
  {
    ItemsOf5([] + [a] + [b] + [c] + [d] + [e], a, b, c, d, e, k0, k1, k2, k3, k4, k5);
    LeadSnoc([] + [a] + [b] + [c] + [d] + [e], f, next);
  }

  lemma ItemsOf7(s: seq<Shape>, a: Shape, b: Shape, c: Shape, d: Shape, e: Shape, f: Shape, g: Shape,
                 k0: Next, k1: Next, k2: Next, k3: Next, k4: Next, k5: Next, k6: Next, next: Next)
    requires s == [] + [a] + [b] + [c] + [d] + [e] + [f] + [g]
    requires LeadOf(a, k1) == k0 && LeadOf(b, k2) == k1 && LeadOf(c, k3) == k2 && LeadOf(d, k4) == k3
    requires LeadOf(e, k5) == k4 && LeadOf(f, k6) == k5 && LeadOf(g, next) == k6
    ensures |s| == 7 && s[0] == a && s[1] == b && s[2] == c && s[3] == d
    ensures s[4] == e && s[5] == f && s[6] == g
    ensures Lead(s, next) == k0
  {
    ItemsOf6([] + [a] + [b] + [c] + [d] + [e] + [f], a, b, c, d, e, f, k0, k1, k2, k3, k4, k5, k6);
    LeadSnoc([] + [a] + [b] + [c] + [d] + [e] + [f], g, next);
  }

  lemma ItemsOf8(s: seq<Shape>, a: Shape, b: Shape, c: Shape, d: Shape, e: Shape, f: Shape, g: Shape, h: Shape,
                 k0: Next, k1: Next, k2: Next, k3: Next, k4: Next, k5: Next, k6: Next, k7: Next, next: Next)
    requires s == [] + [a] + [b] + [c] + [d] + [e] + [f] + [g] + [h]
    requires LeadOf(a, k1) == k0 && LeadOf(b, k2) == k1 && LeadOf(c, k3) == k2 && LeadOf(d, k4) == k3
    requires LeadOf(e, k5) == k4 && LeadOf(f, k6) == k5 && LeadOf(g, k7) == k6 && LeadOf(h, next) == k7
    ensures |s| == 8 && s[0] == a && s[1] == b && s[2] == c && s[3] == d
    ensures s[4] == e && s[5] == f && s[6] == g && s[7] == h
    ensures Lead(s, next) == k0
  {
    ItemsOf7([] + [a] + [b] + [c] + [d] + [e] + [f] + [g], a, b, c, d, e, f, g, k0, k1, k2, k3, k4, k5, k6, k7);
    LeadSnoc([] + [a] + [b] + [c] + [d] + [e] + [f] + [g], h, next);
  }

  /** [a] + xs + [b]: its middle is xs, and it starts where `a` does with xs
    * and `b` after it. */
  lemma Enclosed(s: seq<Shape>, a: Shape, xs: seq<Shape>, b: Shape, next: Next)
    requires s == [] + [a] + xs + [b]
    ensures |s| == |xs| + 2 && s[0] == a && s[|s| - 1] == b && s[1..|xs| + 1] == xs
    ensures forall i :: 1 <= i < |xs| + 1 ==> s[i] == xs[i - 1]
    ensures Lead(s, next) == LeadOf(a, Lead(xs, LeadOf(b, next)))
  {
    assert s == [a] + (xs + [b]);
    assert s[1..] == xs + [b];
    LeadSnoc(xs, b, next);
  }

  /** [a] + xs + [y] + [z], likewise. */
  lemma Around(s: seq<Shape>, a: Shape, xs: seq<Shape>, y: Shape, z: Shape, next: Next)
    requires s == [] + [a] + xs + [y] + [z]
    ensures |s| == |xs| + 3 && s[0] == a && s[|s| - 2] == y && s[|s| - 1] == z
    ensures s[1..|xs| + 1] == xs
    ensures forall i :: 1 <= i < |xs| + 1 ==> s[i] == xs[i - 1]
    ensures Lead(s, next) == LeadOf(a, Lead(xs, LeadOf(y, LeadOf(z, next))))
  {
    Enclosed(s[..|s| - 1], a, xs, y, LeadOf(z, next));
    LeadSnoc(s[..|s| - 1], z, next);
    assert s == s[..|s| - 1] + [z];
  }

  /** The children after the first, a separated list: each element is where
    * the list puts it, one position further on. */
  lemma SeparatedWithin(c: seq<Shape>, s: seq<Shape>, elem: (Shape, Next) -> bool, sep: TokenKind, last: Next)
    requires |s| + 1 <= |c| && forall j :: 0 <= j < |s| ==> c[j + 1] == s[j]
    requires Separated(s, elem, sep, last)
    ensures forall i :: 1 <= i < |s| + 1 ==>
              if i % 2 == 1 then elem(c[i], if i == |s| then last else Some(sep)) else TokenOf(c[i], sep)
  {
    forall i | 1 <= i < |s| + 1
      ensures if i % 2 == 1 then elem(c[i], if i == |s| then last else Some(sep)) else TokenOf(c[i], sep)
    {
      assert c[i] == s[i - 1];
      assert i % 2 == 1 <==> (i - 1) % 2 == 0;
    }
  }

  /** An optional part of zero, one or two elements, spelled out as
    * one-element appends. */
  lemma Absent(front: seq<Shape>, part: seq<Shape>)
    requires part == []
    ensures front + part == front
  {
  }

  lemma Single(front: seq<Shape>, part: seq<Shape>)
    requires |part| == 1
    ensures front + part == front + [part[0]]
  {
    assert part == [part[0]];
  }

  lemma Double(front: seq<Shape>, part: seq<Shape>, next: Next)
    requires |part| == 2
    ensures front + part == front + [part[0]] + [part[1]]
    ensures Lead(part, next) == LeadOf(part[0], LeadOf(part[1], next))
  {
    assert part == [] + [part[0]] + [part[1]];
    ItemsOf2(part, part[0], part[1], LeadOf(part[0], LeadOf(part[1], next)), LeadOf(part[1], next), next);
  }

  /** An optional single element: absent when the cursor is not at `k`, and
    * otherwise an element `p` accepts that starts there. */
  predicate OptionalAt(s: seq<Shape>, p: (Shape, Next) -> bool, k: TokenKind, before: Next, after: Next) {
    || (s == [] && before != Some(k) && after == before)
    || (|s| == 1 && before == Some(k) && p(s[0], after) && LeadOf(s[0], after) == before)
  }

  // ---- program, header, uses clause ----

  lemma FileShape(items: seq<Shape>, header: Shape, semi: Shape, uses: seq<Shape>, block: Shape, dot: Shape,
                  k0: Next, k1: Next, k2: Next, k3: Next, k4: Next, next: Next)
    requires items == [] + [header] + [semi] + uses + [block] + [dot]
    requires IsProgramHeader(header, k1) && LeadOf(header, k1) == k0
    requires ExpectedToken(semi, SEMICOLON, ";", k2) && LeadOf(semi, k2) == k1
    requires OptionalAt(uses, IsUsesClause, USES, k2, k3)
    requires IsBlock(block, k4) && LeadOf(block, k4) == k3
    requires ExpectedToken(dot, DOT, ".", next) && LeadOf(dot, next) == k4
    ensures IsFile(Elem(File, items), next) && LeadOf(Elem(File, items), next) == k0
  {
    if uses == [] {
      Absent([] + [header] + [semi], uses);
      ItemsOf4(items, header, semi, block, dot, k0, k1, k3, k4, next);
    } else {
      Single([] + [header] + [semi], uses);
      ItemsOf5(items, header, semi, uses[0], block, dot, k0, k1, k2, k3, k4, next);
    }
  }

  lemma ProgramHeaderShape(items: seq<Shape>, kw: Shape, id: Shape, params: seq<Shape>,
                           k0: Next, k1: Next, k2: Next, next: Next)
    requires items == [] + [kw] + [id] + params
    requires ExpectedToken(kw, PROGRAM, "PROGRAM", k1) && LeadOf(kw, k1) == k0
    requires IsIdentifier(id, k2) && LeadOf(id, k2) == k1
    requires OptionalAt(params, IsProgramParameters, LPAREN, k2, next)
    ensures IsProgramHeader(Elem(ProgramHeader, items), next) && LeadOf(Elem(ProgramHeader, items), next) == k0
  {
    if params == [] {
      Absent([] + [kw] + [id], params);
      ItemsOf2(items, kw, id, k0, k1, next);
    } else {
      Single([] + [kw] + [id], params);
      ItemsOf3(items, kw, id, params[0], k0, k1, k2, next);
    }
  }

  lemma IdentifierShape(items: seq<Shape>, x: Shape, k0: Next, next: Next)
    requires items == [] + [x]
    requires ExpectedToken(x, IDENTIFIER, "IDENTIFIER", next) && LeadOf(x, next) == k0
    ensures IsIdentifier(Elem(Identifier, items), next) && LeadOf(Elem(Identifier, items), next) == k0
  {
    ItemsOf1(items, x, LeadOf(x, next), next);
  }

  lemma ProgramParametersShape(items: seq<Shape>, open: Shape, ids: seq<Shape>, close: Shape,
                               k0: Next, k1: Next, k2: Next, next: Next)
    requires items == [] + [open] + ids + [close]
    requires ExpectedToken(open, LPAREN, "(", k1) && LeadOf(open, k1) == k0
    requires Lead(ids, k2) == k1
    requires || (ids == [] && k1 != Some(IDENTIFIER))
             || (k1 == Some(IDENTIFIER) && Separated(ids, IsIdentifier, COMMA, k2) && k2 != Some(COMMA))
    requires ExpectedToken(close, RPAREN, ")", next) && LeadOf(close, next) == k2
    ensures IsProgramParameters(Elem(ProgramParameters, items), next) && LeadOf(Elem(ProgramParameters, items), next) == k0
  {
    Enclosed(items, open, ids, close, next);
  }

  lemma UsesClauseShape(items: seq<Shape>, kw: Shape, clauses: seq<Shape>, semi: Shape,
                        k0: Next, k1: Next, k2: Next, next: Next)
    requires items == [] + [kw] + clauses + [semi]
    requires ExpectedToken(kw, USES, "USES", k1) && LeadOf(kw, k1) == k0
    requires Separated(clauses, IsClause, COMMA, k2) && Lead(clauses, k2) == k1 && k2 != Some(COMMA)
    requires ExpectedToken(semi, SEMICOLON, ";", next) && LeadOf(semi, next) == k2
    ensures IsUsesClause(Elem(UsesClause, items), next) && LeadOf(Elem(UsesClause, items), next) == k0
  {
    Enclosed(items, kw, clauses, semi, next);
  }

  lemma ClauseShape(items: seq<Shape>, name: Shape, rest: seq<Shape>, k0: Next, k1: Next, next: Next)
    requires items == [] + [name] + rest
    requires ExpectedToken(name, IDENTIFIER, "IDENTIFIER", k1) && LeadOf(name, k1) == k0
    requires || (rest == [] && k1 == next && next != Some(IN))
             || (&& |rest| == 2 && k1 == Some(IN) && TokenOf(rest[0], IN)
                 && ExpectedToken(rest[1], STRING, "STRING", next))
    ensures IsClause(Elem(Clause, items), next) && LeadOf(Elem(Clause, items), next) == k0
  {
    if rest == [] {
      Absent([] + [name], rest);
      ItemsOf1(items, name, k0, next);
    } else {
      Double([] + [name], rest, next);
      ItemsOf3(items, name, rest[0], rest[1], k0, k1, LeadOf(rest[1], next), next);
    }
  }

  // ---- blocks and declarations ----

  lemma BlockShape(items: seq<Shape>, decls: seq<Shape>, body: Shape, k0: Next, k1: Next, next: Next)
    requires items == [] + decls + [body]
    requires || (decls == [] && k1 == k0 && (k0 == Some(BEGIN) || k0 == None))
             || (|decls| == 1 && IsDeclarationPart(decls[0], k1) && LeadOf(decls[0], k1) == k0)
    requires IsStatementPart(body, next) && LeadOf(body, next) == k1
    ensures IsBlock(Elem(Block, items), next) && LeadOf(Elem(Block, items), next) == k0
  {
    if decls == [] {
      Absent([], decls);
      ItemsOf1(items, body, k0, next);
    } else {
      Single([], decls);
      ItemsOf2(items, decls[0], body, k0, k1, next);
    }
  }

  lemma DeclarationPartShape(items: seq<Shape>, next: Next)
    requires |items| >= 1 && (next == Some(BEGIN) || next == None)
    requires Run(items, IsDeclaration, next)
    ensures IsDeclarationPart(Elem(DeclarationPart, items), next)
  {
  }

  lemma FunctionDeclarationShape(items: seq<Shape>, kw: Shape, name: Shape, semi: Shape, body: Shape,
                                 k0: Next, k1: Next, k2: Next, k3: Next, next: Next)
    requires items == [] + [kw] + [name] + [semi] + [body]
    requires ExpectedToken(kw, FUNCTION, "FUNCTION", k1) && LeadOf(kw, k1) == k0
    requires ExpectedToken(name, IDENTIFIER, "IDENTIFIER", k2) && LeadOf(name, k2) == k1
    requires ExpectedToken(semi, SEMICOLON, ";", k3) && LeadOf(semi, k3) == k2
    requires IsBlock(body, next) && LeadOf(body, next) == k3
    ensures IsFunctionDeclaration(Elem(FunctionDeclaration, items), next) && LeadOf(Elem(FunctionDeclaration, items), next) == k0
  {
    ItemsOf4(items, kw, name, semi, body, k0, k1, k2, k3, next);
  }

  lemma ProcedureDeclarationShape(items: seq<Shape>, kw: Shape, name: Shape, semi: Shape, body: Shape,
                                  k0: Next, k1: Next, k2: Next, k3: Next, next: Next)
    requires items == [] + [kw] + [name] + [semi] + [body]
    requires ExpectedToken(kw, PROCEDURE, "PROCEDURE", k1) && LeadOf(kw, k1) == k0
    requires ExpectedToken(name, IDENTIFIER, "IDENTIFIER", k2) && LeadOf(name, k2) == k1
    requires ExpectedToken(semi, SEMICOLON, ";", k3) && LeadOf(semi, k3) == k2
    requires IsBlock(body, next) && LeadOf(body, next) == k3
    ensures IsProcedureDeclaration(Elem(ProcedureDeclaration, items), next) && LeadOf(Elem(ProcedureDeclaration, items), next) == k0
  {
    ItemsOf4(items, kw, name, semi, body, k0, k1, k2, k3, next);
  }

  lemma LabelDeclarationPartShape(items: seq<Shape>, kw: Shape, labels: seq<Shape>, semi: Shape,
                                  k0: Next, k1: Next, k2: Next, next: Next)
    requires items == [] + [kw] + labels + [semi]
    requires ExpectedToken(kw, LABEL, "LABEL", k1) && LeadOf(kw, k1) == k0
    requires Separated(labels, IsLabel, COMMA, k2) && Lead(labels, k2) == k1 && k2 != Some(COMMA)
    requires ExpectedToken(semi, SEMICOLON, ";", next) && LeadOf(semi, next) == k2
    ensures IsLabelDeclarationPart(Elem(LabelDeclarationPart, items), next) && LeadOf(Elem(LabelDeclarationPart, items), next) == k0
  {
    Enclosed(items, kw, labels, semi, next);
  }

  lemma VariableDeclarationPartShape(items: seq<Shape>, kw: Shape, decls: seq<Shape>,
                                     k0: Next, k1: Next, next: Next)
    requires items == [] + [kw] + decls
    requires ExpectedToken(kw, VAR, "VAR", k1) && LeadOf(kw, k1) == k0
    requires IsVariableDeclarationList(decls, next) && Lead(decls, next) == k1 && next != Some(IDENTIFIER)
    ensures IsVariableDeclarationPart(Elem(VariableDeclarationPart, items), next) && LeadOf(Elem(VariableDeclarationPart, items), next) == k0
  {
    assert items == [kw] + decls;
    assert items[1..] == decls;
    LeadOfNode(VariableDeclarationPart, items, next);
  }

  lemma VariableDeclarationShape(items: seq<Shape>, name: Shape, colon: Shape, ty: Shape, init: seq<Shape>,
                                 semi: Shape, k0: Next, k1: Next, k2: Next, k3: Next, k4: Next, next: Next)
    requires items == [] + [name] + [colon] + [ty] + init + [semi]
    requires ExpectedToken(name, IDENTIFIER, "IDENTIFIER", k1) && LeadOf(name, k1) == k0
    requires ExpectedToken(colon, COLON, ":", k2) && LeadOf(colon, k2) == k1
    requires TokenIn(ty, VariableTypes) || ErrorAdvanced(ty, "INTEGER, REAL, BOOLEAN, CHAR", VariableTypes, k3)
    requires LeadOf(ty, k3) == k2
    requires Lead(init, k4) == k3 && (init != [] <==> k3 == Some(EQ))
    requires init == [] || (|init| == 2 && TokenOf(init[0], EQ) && IsExpression(init[1], k4))
    requires ExpectedToken(semi, SEMICOLON, ";", next) && LeadOf(semi, next) == k4
    ensures IsVariableDeclaration(Elem(VariableDeclaration, items), next) && LeadOf(Elem(VariableDeclaration, items), next) == k0
  {
    if init == [] {
      Absent([] + [name] + [colon] + [ty], init);
      ItemsOf4(items, name, colon, ty, semi, k0, k1, k2, k4, next);
    } else {
      Double([] + [name] + [colon] + [ty], init, k4);
      ItemsOf6(items, name, colon, ty, init[0], init[1], semi, k0, k1, k2, k3, LeadOf(init[1], k4), k4, next);
    }
  }

  // ---- expressions ----

  lemma ExpressionShape(items: seq<Shape>, left: Shape, rest: seq<Shape>, k0: Next, k1: Next, next: Next)
    requires items == [] + [left] + rest
    requires IsSimpleExpression(left, k1) && LeadOf(left, k1) == k0
    requires || (rest == [] && k1 == next && !KindIn(next, SimpleExpressionOperators))
             || (&& |rest| == 2 && LeadOf(rest[0], LeadOf(rest[1], next)) == k1
                 && IsSimpleExpressionOperator(rest[0]) && IsSimpleExpression(rest[1], next))
    ensures IsExpression(Elem(Expression, items), next) && LeadOf(Elem(Expression, items), next) == k0
    ensures |items| == 1 <==> rest == []
  {
    if rest == [] {
      Absent([] + [left], rest);
      ItemsOf1(items, left, k0, next);
    } else {
      Double([] + [left], rest, next);
      ItemsOf3(items, left, rest[0], rest[1], k0, k1, LeadOf(rest[1], next), next);
    }
  }

  lemma SimpleExpressionShape(items: seq<Shape>, left: Shape, rest: seq<Shape>, k0: Next, k1: Next, next: Next)
    requires items == [] + [left] + rest
    requires IsTerm(left, k1) && LeadOf(left, k1) == k0
    requires || (rest == [] && k1 == next && !KindIn(next, TermOperators))
             || (&& |rest| == 2 && LeadOf(rest[0], LeadOf(rest[1], next)) == k1
                 && IsTermOperator(rest[0]) && IsTerm(rest[1], next))
    ensures IsSimpleExpression(Elem(SimpleExpression, items), next) && LeadOf(Elem(SimpleExpression, items), next) == k0
    ensures |items| == 1 <==> rest == []
  {
    if rest == [] {
      Absent([] + [left], rest);
      ItemsOf1(items, left, k0, next);
    } else {
      Double([] + [left], rest, next);
      ItemsOf3(items, left, rest[0], rest[1], k0, k1, LeadOf(rest[1], next), next);
    }
  }

  lemma TermShape(items: seq<Shape>, left: Shape, rest: seq<Shape>, k0: Next, k1: Next, next: Next)
    requires items == [] + [left] + rest
    requires IsFactor(left, k1) && LeadOf(left, k1) == k0
    requires || (rest == [] && k1 == next && !KindIn(next, FactorOperators))
             || (&& |rest| == 2 && LeadOf(rest[0], LeadOf(rest[1], next)) == k1
                 && IsFactorOperator(rest[0]) && IsFactor(rest[1], next))
    ensures IsTerm(Elem(Term, items), next) && LeadOf(Elem(Term, items), next) == k0
    ensures |items| == 1 <==> rest == []
  {
    if rest == [] {
      Absent([] + [left], rest);
      ItemsOf1(items, left, k0, next);
    } else {
      Double([] + [left], rest, next);
      ItemsOf3(items, left, rest[0], rest[1], k0, k1, LeadOf(rest[1], next), next);
    }
  }

  lemma OperatorShape(items: seq<Shape>, k: NodeKind, ops: set<TokenKind>, x: Shape, next: Next)
    requires items == [] + [x]
    requires TokenIn(x, ops)
    ensures IsOperator(Elem(k, items), k, ops) && LeadOf(Elem(k, items), next) == LeadOf(x, next)
  {
    ItemsOf1(items, x, LeadOf(x, next), next);
  }

  /** An identifier token, with the parameter list there exactly when "("
    * follows it. */
  lemma FactorCallShape(items: seq<Shape>, id: Shape, args: seq<Shape>, k1: Next, next: Next)
    requires items == [] + [id] + args
    requires TokenOf(id, IDENTIFIER)
    requires OptionalAt(args, IsParameterList, LPAREN, k1, next)
    ensures IsFactor(Elem(Factor, items), next) && LeadOf(Elem(Factor, items), next) == LeadOf(id, k1)
  {
    if args == [] {
      Absent([] + [id], args);
      ItemsOf1(items, id, LeadOf(id, k1), next);
    } else {
      Single([] + [id], args);
      ItemsOf2(items, id, args[0], LeadOf(id, k1), k1, next);
    }
  }

  /** "NOT", "+" or "-" before a factor. */
  lemma FactorPrefixShape(items: seq<Shape>, op: Shape, operand: Shape, k1: Next, next: Next)
    requires items == [] + [op] + [operand]
    requires TokenOf(op, NOT) || TokenOf(op, PLUS) || TokenOf(op, MINUS)
    requires IsFactor(operand, next) && LeadOf(operand, next) == k1
    ensures IsFactor(Elem(Factor, items), next) && LeadOf(Elem(Factor, items), next) == LeadOf(op, k1)
  {
    ItemsOf2(items, op, operand, LeadOf(op, k1), k1, next);
  }

  /** An unsigned integer token. */
  lemma FactorIntegerShape(items: seq<Shape>, x: Shape, next: Next)
    requires items == [] + [x]
    requires TokenOf(x, UNSIGNED_INTEGER)
    ensures IsFactor(Elem(Factor, items), next) && LeadOf(Elem(Factor, items), next) == LeadOf(x, next)
  {
    ItemsOf1(items, x, LeadOf(x, next), next);
  }

  /** An unsigned constant element, where no other alternative starts. */
  lemma FactorConstantShape(items: seq<Shape>, x: Shape, k0: Next, next: Next)
    requires items == [] + [x]
    requires IsUnsignedConstant(x, next) && LeadOf(x, next) == k0 && !KindIn(k0, FactorStarts)
    ensures IsFactor(Elem(Factor, items), next) && LeadOf(Elem(Factor, items), next) == k0
  {
    ItemsOf1(items, x, LeadOf(x, next), next);
  }

  lemma FactorParenthesisedShape(items: seq<Shape>, open: Shape, e: Shape, close: Shape,
                                 k1: Next, k2: Next, next: Next)
    requires items == [] + [open] + [e] + [close]
    requires TokenOf(open, LPAREN)
    requires IsExpression(e, k2) && LeadOf(e, k2) == k1
    requires ExpectedToken(close, LPAREN, ")", next) && LeadOf(close, next) == k2
    ensures IsFactor(Elem(Factor, items), next) && LeadOf(Elem(Factor, items), next) == LeadOf(open, k1)
  {
    ItemsOf3(items, open, e, close, LeadOf(open, k1), k1, k2, next);
  }

  lemma ParameterListShape(items: seq<Shape>, open: Shape, args: seq<Shape>, close: Shape,
                           k0: Next, k1: Next, k2: Next, next: Next)
    requires items == [] + [open] + args + [close]
    requires ExpectedToken(open, LPAREN, "(", k1) && LeadOf(open, k1) == k0
    requires Arguments(args, IsExpression, k2) && Lead(args, k2) == k1
    requires k2 == Some(RPAREN) || k2 == None
    requires ExpectedToken(close, RPAREN, ")", next) && LeadOf(close, next) == k2
    ensures IsParameterList(Elem(ParameterList, items), next) && LeadOf(Elem(ParameterList, items), next) == k0
  {
    Enclosed(items, open, args, close, next);
    var t := Elem(ParameterList, items);
    var c := Items(t);
    assert c == items && c[1..|c| - 1] == args && LeadOf(c[|c| - 1], next) == k2;
    forall j | 0 <= j < |c| - 2
      ensures ArgumentAt(t, j, next)
    {
      assert ArgAt(args, j, IsExpression, k2);
    }
  }

  lemma UnsignedConstantShape(items: seq<Shape>, x: Shape, k0: Next, next: Next)
    requires items == [] + [x]
    requires || TokenOf(x, UNSIGNED_INTEGER) || TokenOf(x, STRING)
             || ErrorAdvanced(x, "UNSIGNED_CONSTANT", {UNSIGNED_INTEGER, STRING}, next)
    requires LeadOf(x, next) == k0
    ensures IsUnsignedConstant(Elem(UnsignedConstant, items), next) && LeadOf(Elem(UnsignedConstant, items), next) == k0
  {
    ItemsOf1(items, x, LeadOf(x, next), next);
  }

  // ---- statements ----

  lemma StatementPartShape(items: seq<Shape>, body: Shape, next: Next)
    requires items == [] + [body]
    requires IsCompoundStatement(body, next)
    ensures IsStatementPart(Elem(StatementPart, items), next) && LeadOf(Elem(StatementPart, items), next) == LeadOf(body, next)
  {
    ItemsOf1(items, body, LeadOf(body, next), next);
  }

  lemma LabelShape(items: seq<Shape>, x: Shape, k0: Next, next: Next)
    requires items == [] + [x]
    requires || TokenOf(x, IDENTIFIER) || TokenOf(x, UNSIGNED_INTEGER)
             || (&& x == Err(Bare("IDENTIFIER or UNSIGNED_INTEGER"), [])
                 && next != Some(IDENTIFIER) && next != Some(UNSIGNED_INTEGER))
    requires LeadOf(x, next) == k0
    ensures IsLabel(Elem(Label, items), next) && LeadOf(Elem(Label, items), next) == k0
  {
    ItemsOf1(items, x, LeadOf(x, next), next);
  }

  lemma CompoundStatementShape(items: seq<Shape>, kw: Shape, stmts: seq<Shape>, end: Shape,
                               k0: Next, k1: Next, k2: Next, next: Next)
    requires items == [] + [kw] + stmts + [end]
    requires ExpectedToken(kw, BEGIN, "BEGIN", k1) && LeadOf(kw, k1) == k0
    requires Separated(stmts, IsStatement, SEMICOLON, k2) && Lead(stmts, k2) == k1 && k2 != Some(SEMICOLON)
    requires ExpectedToken(end, END, "END", next) && LeadOf(end, next) == k2
    ensures IsCompoundStatement(Elem(CompoundStatement, items), next) && LeadOf(Elem(CompoundStatement, items), next) == k0
  {
    Enclosed(items, kw, stmts, end, next);
    SeparatedWithin(items, stmts, IsStatement, SEMICOLON, k2);
  }

  lemma StatementShape(items: seq<Shape>, prefix: seq<Shape>, body: Shape, k0: Next, k1: Next, next: Next)
    requires items == [] + prefix + [body]
    requires Lead(prefix, k1) == k0
    requires || prefix == []
             || (&& |prefix| == 2
                 && IsLabel(prefix[0], LeadOf(prefix[1], k1)) && ExpectedToken(prefix[1], COLON, ":", k1)
                 && (Items(prefix[0])[0].Tok? ==> TokenOf(prefix[1], COLON)))
    requires LeadOf(body, next) == k1
    requires if KindIn(k1, StructuredStarts) then IsStructuredStatement(body, next)
             else IsSimpleStatement(body, next)
    ensures IsStatement(Elem(Statement, items), next) && LeadOf(Elem(Statement, items), next) == k0
    ensures |items| == 3 <==> prefix != []
    ensures IsNode(items[0], Label) <==> prefix != []
  {
    if prefix == [] {
      Absent([], prefix);
      ItemsOf1(items, body, k0, next);
    } else {
      Double([], prefix, k1);
      ItemsOf3(items, prefix[0], prefix[1], body, k0, LeadOf(prefix[1], k1), k1, next);
    }
  }

  lemma ConditionStatementShape(items: seq<Shape>, kw: Shape, cond: Shape, thenKw: Shape, body: Shape,
                                rest: seq<Shape>, k0: Next, k1: Next, k2: Next, k3: Next, k4: Next, next: Next)
    requires items == [] + [kw] + [cond] + [thenKw] + [body] + rest
    requires ExpectedToken(kw, IF, "IF", k1) && LeadOf(kw, k1) == k0
    requires IsExpression(cond, k2) && LeadOf(cond, k2) == k1
    requires ExpectedToken(thenKw, THEN, "THEN", k3) && LeadOf(thenKw, k3) == k2
    requires IsStatement(body, k4) && LeadOf(body, k4) == k3
    requires Lead(rest, next) == k4
    requires || (rest == [] && k4 != Some(ELSE))
             || (|rest| == 2 && TokenOf(rest[0], ELSE) && IsStatement(rest[1], next))
    ensures IsConditionStatement(Elem(ConditionStatement, items), next) && LeadOf(Elem(ConditionStatement, items), next) == k0
  {
    if rest == [] {
      Absent([] + [kw] + [cond] + [thenKw] + [body], rest);
      ItemsOf4(items, kw, cond, thenKw, body, k0, k1, k2, k3, next);
    } else {
      Double([] + [kw] + [cond] + [thenKw] + [body], rest, next);
      ItemsOf6(items, kw, cond, thenKw, body, rest[0], rest[1], k0, k1, k2, k3, k4, LeadOf(rest[1], next), next);
    }
  }

  lemma ForStatementShape(items: seq<Shape>, kw: Shape, id: Shape, assign: Shape, from: Shape,
                          dir: Shape, to: Shape, doKw: Shape, body: Shape,
                          k0: Next, k1: Next, k2: Next, k3: Next, k4: Next, k5: Next, k6: Next, k7: Next,
                          next: Next)
    requires items == [] + [kw] + [id] + [assign] + [from] + [dir] + [to] + [doKw] + [body]
    requires ExpectedToken(kw, FOR, "FOR", k1) && LeadOf(kw, k1) == k0
    requires ExpectedToken(id, IDENTIFIER, "IDENTIFIER", k2) && LeadOf(id, k2) == k1
    requires ExpectedToken(assign, ASSIGN, ":=", k3) && LeadOf(assign, k3) == k2
    requires IsExpression(from, k4) && LeadOf(from, k4) == k3
    requires TokenOf(dir, TO) || TokenOf(dir, DOWNTO) || ErrorAdvanced(dir, "TO or DOWNTO", {TO, DOWNTO}, k5)
    requires LeadOf(dir, k5) == k4
    requires IsExpression(to, k6) && LeadOf(to, k6) == k5
    requires ExpectedToken(doKw, DO, "DO", k7) && LeadOf(doKw, k7) == k6
    requires IsStatement(body, next) && LeadOf(body, next) == k7
    ensures IsForStatement(Elem(ForStatement, items), next) && LeadOf(Elem(ForStatement, items), next) == k0
  {
    ItemsOf8(items, kw, id, assign, from, dir, to, doKw, body, k0, k1, k2, k3, k4, k5, k6, k7, next);
    var c := Items(Elem(ForStatement, items));
    assert c == items;
    assert LeadOf(c[7], next) == k7 && LeadOf(c[6], k7) == k6 && LeadOf(c[5], k6) == k5;
    assert LeadOf(c[4], k5) == k4 && LeadOf(c[3], k4) == k3 && LeadOf(c[2], k3) == k2;
    assert LeadOf(c[1], k2) == k1;
    LeadOfNode(ForStatement, items, next);
  }

  lemma WhileStatementShape(items: seq<Shape>, kw: Shape, cond: Shape, doKw: Shape, body: Shape,
                            k0: Next, k1: Next, k2: Next, k3: Next, next: Next)
    requires items == [] + [kw] + [cond] + [doKw] + [body]
    requires ExpectedToken(kw, WHILE, "WHILE", k1) && LeadOf(kw, k1) == k0
    requires IsExpression(cond, k2) && LeadOf(cond, k2) == k1
    requires ExpectedToken(doKw, DO, "DO", k3) && LeadOf(doKw, k3) == k2
    requires IsStatement(body, next) && LeadOf(body, next) == k3
    ensures IsWhileStatement(Elem(WhileStatement, items), next) && LeadOf(Elem(WhileStatement, items), next) == k0
  {
    ItemsOf4(items, kw, cond, doKw, body, k0, k1, k2, k3, next);
  }

  /** The children of a REPEAT_STATEMENT with the statement and expression
    * productions as parameters. */
  ghost predicate RepeatLayout(c: seq<Shape>, next: Next, stmt: (Shape, Next) -> bool, expr: (Shape, Next) -> bool) {
    && |c| >= 4 && |c| % 2 == 0
    && (var afterUntil := LeadOf(c[|c| - 1], next);
        var atUntil := LeadOf(c[|c| - 2], afterUntil);
        && ExpectedToken(c[0], REPEAT, "REPEAT", Lead(c[1..|c| - 2], atUntil))
        && (forall i :: 1 <= i < |c| - 2 ==>
              if i % 2 == 1 then stmt(c[i], if i == |c| - 3 then atUntil else Some(SEMICOLON))
              else TokenOf(c[i], SEMICOLON))
        && atUntil != Some(SEMICOLON)
        && ExpectedToken(c[|c| - 2], UNTIL, "UNTIL", afterUntil)
        && expr(c[|c| - 1], next))
  }

  lemma RepeatLayoutOf(items: seq<Shape>, kw: Shape, stmts: seq<Shape>, until: Shape, cond: Shape,
                       stmt: (Shape, Next) -> bool, expr: (Shape, Next) -> bool,
                       k0: Next, k1: Next, k2: Next, k3: Next, next: Next)
    requires items == [] + [kw] + stmts + [until] + [cond]
    requires ExpectedToken(kw, REPEAT, "REPEAT", k1) && LeadOf(kw, k1) == k0
    requires Separated(stmts, stmt, SEMICOLON, k2) && Lead(stmts, k2) == k1 && k2 != Some(SEMICOLON)
    requires ExpectedToken(until, UNTIL, "UNTIL", k3) && LeadOf(until, k3) == k2
    requires expr(cond, next) && LeadOf(cond, next) == k3
    ensures RepeatLayout(items, next, stmt, expr) && Lead(items, next) == k0
  {
    Around(items, kw, stmts, until, cond, next);
    SeparatedWithin(items, stmts, stmt, SEMICOLON, k2);
  }

  lemma RepeatStatementShape(items: seq<Shape>, kw: Shape, stmts: seq<Shape>, until: Shape, cond: Shape,
                             k0: Next, k1: Next, k2: Next, k3: Next, next: Next)
    requires items == [] + [kw] + stmts + [until] + [cond]
    requires ExpectedToken(kw, REPEAT, "REPEAT", k1) && LeadOf(kw, k1) == k0
    requires Separated(stmts, IsStatement, SEMICOLON, k2) && Lead(stmts, k2) == k1 && k2 != Some(SEMICOLON)
    requires ExpectedToken(until, UNTIL, "UNTIL", k3) && LeadOf(until, k3) == k2
    requires IsExpression(cond, next) && LeadOf(cond, next) == k3
    ensures IsRepeatStatement(Elem(RepeatStatement, items), next) && LeadOf(Elem(RepeatStatement, items), next) == k0
  {
    RepeatLayoutOf(items, kw, stmts, until, cond, IsStatement, IsExpression, k0, k1, k2, k3, next);
    assert Items(Elem(RepeatStatement, items)) == items;
  }

  lemma SimpleStatementShape(items: seq<Shape>, body: Shape, next: Next)
    requires items == [] + [body]
    requires (IsAssignment(body, next) && AssignmentAhead(body, next)) || IsProcedureStatement(body, next)
    ensures IsSimpleStatement(Elem(SimpleStatement, items), next) && LeadOf(Elem(SimpleStatement, items), next) == LeadOf(body, next)
  {
    ItemsOf1(items, body, LeadOf(body, next), next);
  }

  lemma AssignmentShape(items: seq<Shape>, id: Shape, op: Shape, e: Shape,
                        k0: Next, k1: Next, k2: Next, next: Next)
    requires items == [] + [id] + [op] + [e]
    requires ExpectedToken(id, IDENTIFIER, "IDENTIFIER", k1) && LeadOf(id, k1) == k0
    requires || TokenIn(op, AssignmentOperators)
             || (op == Err(Bare("ASSIGNMENT_OPERATOR"), []) && !KindIn(k2, AssignmentOperators))
    requires LeadOf(op, k2) == k1
    requires IsExpression(e, next) && LeadOf(e, next) == k2
    ensures IsAssignment(Elem(Assignment, items), next) && LeadOf(Elem(Assignment, items), next) == k0
    ensures TokenOf(id, IDENTIFIER) && KindIn(k1, Assignments) ==> AssignmentAhead(Elem(Assignment, items), next)
  {
    ItemsOf3(items, id, op, e, k0, k1, k2, next);
  }

  lemma ProcedureStatementShape(items: seq<Shape>, id: Shape, args: seq<Shape>,
                                k0: Next, k1: Next, next: Next)
    requires items == [] + [id] + args
    requires ExpectedToken(id, IDENTIFIER, "IDENTIFIER", k1) && LeadOf(id, k1) == k0
    requires OptionalAt(args, IsParameterList, LPAREN, k1, next)
    ensures IsProcedureStatement(Elem(ProcedureStatement, items), next) && LeadOf(Elem(ProcedureStatement, items), next) == k0
  {
    if args == [] {
      Absent([] + [id], args);
      ItemsOf1(items, id, k0, next);
    } else {
      Single([] + [id], args);
      ItemsOf2(items, id, args[0], k0, k1, next);
    }
  }
}
