/**
 * The part of IntelliJ's PsiBuilder the parser uses: a token cursor with
 * one token of look-ahead, and markers that group the tokens and elements
 * added since they were set into a composite element, an error element, or
 * nothing.
 */
module PsiBuilderModel {
  import opened Options
  import opened PascalTokens
  import opened PascalSyntax

  /** An open marker: the children the enclosing element had when it was set,
    * and where the enclosing element starts. */
  datatype Marker = Marker(before: seq<Tree>, outerStart: nat)

  class Builder {
    /** The tokens the lexer produced, whitespace and comments removed. */
    const tokens: seq<Token>
    /** The index of the current token; |tokens| is the end of the input. */
    var pos: nat
    /** The children built so far for the innermost open marker. */
    var built: seq<Tree>
    /** Where the innermost open marker was set. */
    var start: nat
    /** The shapes of the significant children of the innermost open marker. */
    ghost var items: seq<Shape>

    constructor (tokens: seq<Token>)
      ensures this.tokens == tokens && pos == 0 && built == []
      ensures start == 0 && items == []
      ensures Ready()
    {
      this.tokens := tokens;
      pos := 0;
      built := [];
      start := 0;
      items := [];
    }

    /** The children of the open marker cover exactly the tokens consumed
      * since it was set, and `items` is their significant part. */
    ghost predicate Consistent()
      reads this
    {
      && start <= pos <= |tokens|
      && items == StripSeq(built)
      && LeavesSeq(built) == tokens[start..pos]
    }

    /** Consistent, and once a token has been consumed the cursor never rests
      * on a BAD_CHARACTER token (advance() skips them). */
    ghost predicate Ready()
      reads this
    {
      && Consistent()
      && (pos > 0 && pos < |tokens| ==> tokens[pos].kind != BAD_CHARACTER)
    }

    predicate Eof()
      reads this`pos
    {
      pos >= |tokens|
    }

    /** builder.tokenType: the kind of the current token, None at the end. */
    function TokenType(): (r: Option<TokenKind>)
      reads this`pos
      ensures r.None? <==> Eof()
      ensures forall k :: At(k) <==> r == Some(k)
      ensures forall ks :: AtOneOf(ks) <==> r.Some? && r.value in ks
      ensures Ready() && pos > 0 ==> r != Some(BAD_CHARACTER)
    {
      if pos < |tokens| then Some(tokens[pos].kind) else None
    }

    /** builder.tokenType == k */
    predicate At(k: TokenKind)
      reads this`pos
    {
      pos < |tokens| && tokens[pos].kind == k
    }

    /** builder.tokenType in ks */
    predicate AtOneOf(ks: set<TokenKind>)
      reads this`pos
    {
      pos < |tokens| && tokens[pos].kind in ks
    }

    /** builder.lookAhead(1): the kind of the token after the current one. */
    function LookAhead(): (r: Option<TokenKind>)
      reads this`pos
      ensures forall ks :: NextIn(ks) <==> r.Some? && r.value in ks
    {
      if pos + 1 < |tokens| then Some(tokens[pos + 1].kind) else None
    }

    /** builder.lookAhead(1) in ks */
    predicate NextIn(ks: set<TokenKind>)
      reads this`pos
    {
      pos + 1 < |tokens| && tokens[pos + 1].kind in ks
    }

    /** `m` is the innermost open marker. */
    ghost predicate Innermost(m: Marker)
      reads this
    {
      m.outerStart <= start <= |tokens| && LeavesSeq(m.before) == tokens[m.outerStart..start]
    }

    /** builder.mark(): open a marker; later additions go inside it. */
    method Mark() returns (m: Marker)
      requires Consistent()
      modifies this
      ensures Consistent() && Innermost(m)
      ensures m == Marker(old(built), old(start))
      ensures built == [] && items == [] && start == pos && pos == old(pos)
    {
      m := Marker(built, start);
      built := [];
      items := [];
      start := pos;
    }

    /** marker.done(kind): close the marker into a composite element. */
    method Done(m: Marker, kind: NodeKind)
      requires Consistent() && Innermost(m)
      modifies this
      ensures Consistent()
      ensures built == m.before + [Node(kind, old(built))]
      ensures items == StripSeq(m.before) + [Elem(kind, old(items))]
      ensures Strip(Node(kind, old(built))) == Elem(kind, old(items))
      ensures old(start) <= pos && Leaves(Node(kind, old(built))) == tokens[old(start)..pos]
      ensures start == m.outerStart && pos == old(pos)
    {
      StripSeqAppend(m.before, [Node(kind, built)]);
      LeavesSeqAppend(m.before, [Node(kind, built)]);
      items := StripSeq(m.before) + [Elem(kind, items)];
      built := m.before + [Node(kind, built)];
      start := m.outerStart;
    }

    /** marker.drop(): remove the marker, keeping what was added inside it. */
    method Drop(m: Marker)
      requires Consistent() && Innermost(m)
      modifies this
      ensures Consistent()
      ensures built == m.before + old(built) && items == StripSeq(m.before) + old(items)
      ensures start == m.outerStart && pos == old(pos)
    {
      StripSeqAppend(m.before, built);
      LeavesSeqAppend(m.before, built);
      items := StripSeq(m.before) + items;
      built := m.before + built;
      start := m.outerStart;
    }

    /** marker.error(message): close the marker into an error element. */
    method ErrorMark(m: Marker, message: Message)
      requires Consistent() && Innermost(m)
      modifies this
      ensures Consistent()
      ensures built == m.before + [Error(message, old(built))]
      ensures items == StripSeq(m.before) +
                (if IsTrivia(Error(message, old(built))) then [] else [Err(message, old(items))])
      ensures old(start) <= pos && Leaves(Error(message, old(built))) == tokens[old(start)..pos]
      ensures start == m.outerStart && pos == old(pos)
    {
      StripSeqAppend(m.before, [Error(message, built)]);
      LeavesSeqAppend(m.before, [Error(message, built)]);
      items := StripSeq(m.before) +
               (if IsTrivia(Error(message, built)) then [] else [Err(message, items)]);
      built := m.before + [Error(message, built)];
      start := m.outerStart;
    }

    /** builder.error(message): add an empty error element at the cursor. */
    method ReportError(message: Message)
      requires Consistent()
      modifies this
      ensures Consistent()
      ensures built == old(built) + [Error(message, [])]
      ensures items == old(items) + [Err(message, [])]
      ensures start == old(start) && pos == old(pos)
    {
      StripSeqAppend(built, [Error(message, [])]);
      LeavesSeqAppend(built, [Error(message, [])]);
      items := items + [Err(message, [])];
      built := built + [Error(message, [])];
    }

    /** builder.advanceLexer(): move the current token into the tree; nothing
      * happens at the end of the input. */
    method AdvanceLexer()
      requires Consistent()
      modifies this
      ensures Consistent() && start == old(start)
      ensures old(pos) < |tokens| ==>
                && pos == old(pos) + 1
                && built == old(built) + [Leaf(tokens[old(pos)])]
                && items == old(items) + [Tok(tokens[old(pos)])]
      ensures old(pos) == |tokens| ==>
                pos == old(pos) && built == old(built) && items == old(items)
    {
      if pos < |tokens| {
        StripSeqAppend(built, [Leaf(tokens[pos])]);
        LeavesSeqAppend(built, [Leaf(tokens[pos])]);
        assert tokens[start..pos + 1] == tokens[start..pos] + [tokens[pos]];
        items := items + [Tok(tokens[pos])];
        built := built + [Leaf(tokens[pos])];
        pos := pos + 1;
      }
    }
  }
}
