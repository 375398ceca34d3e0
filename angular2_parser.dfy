/** The Angular template-expression parser's entry point: the identifier
    names it accepts and the top-level loop that parses statements until
    the end of the stream under one root node. */
module Angular2 {
  import opened Tokens
  import opened PsiBuilders
  import opened Baseline
  import opened ExpressionParser
  import opened StatementParser

  /** Identifier names: the baseline's, plus the `then` keyword. */
  function IsIdentifierName(k: Kind): bool {
    BaseIsIdentifierName(k) || k == Then
  }

  /** `then` is the one name the Angular grammar adds to the baseline's. It
      is not an identifier token, so the forms that take identifier tokens
      (`x in coll`, the slots of `(k, v)`, `as x`) never take it; a branch
      (`then a`) takes nothing but a plain identifier in any case. */
  lemma IdentifierNamesAddThen()
    ensures forall k :: IsIdentifierName(k) && !BaseIsIdentifierName(k) <==> k == Then
    ensures forall k :: BaseIsIdentifierName(k) ==> IsIdentifierName(k)
    ensures !IsIdentifierToken(Then)
  {
  }

  class Angular2Parser {
    const builder: PsiBuilder
    const statements: Angular2StatementParser

    predicate Wired() {
      statements.Wired() && statements.builder == builder
    }

    constructor (statements: Angular2StatementParser)
      requires statements.Wired()
      ensures Wired() && this.statements == statements
    {
      this.builder := statements.builder;
      this.statements := statements;
    }

    /** The nodes of the statements from `p` to the end of the stream, each
        parsed along the route the dispatch takes at its start. */
    function StatementsNodes(p: nat): seq<Node>
      requires Wired() && Settled(builder.tokens, p)
      decreases |builder.tokens| - p
    {
      if p == |builder.tokens| then []
      else statements.StatementNodesAt(p) + StatementsNodes(statements.StatementEndAt(p))
    }

    /** What the statements from `p` to the end of the stream report. */
    function StatementsDiags(p: nat): seq<Diag>
      requires Wired() && Settled(builder.tokens, p)
      decreases |builder.tokens| - p
    {
      if p == |builder.tokens| then []
      else statements.StatementDiagsAt(p) + StatementsDiags(statements.StatementEndAt(p))
    }

    /** Parse statements until the end of the stream, then close a node of
        kind `root` over everything consumed. Every statement consumes at
        least one token, so the loop ends, and it ends exactly at the end. */
    method ParseAngular(root: NodeKind)
      requires Wired() && builder.Valid()
      modifies builder
      ensures builder.Valid()
      ensures builder.pos == |builder.tokens|
      ensures builder.nodes == old(builder.nodes) + StatementsNodes(old(builder.pos))
                               + [Node(root, old(builder.pos), |builder.tokens|)]
      ensures builder.diags == old(builder.diags) + StatementsDiags(old(builder.pos))
      ensures builder.markers == old(builder.markers)
    {
      ghost var p0, n0, d0, m0 := builder.pos, builder.nodes, builder.diags, builder.markers;
      var rootMarker := builder.Mark();
      while !builder.Eof()
        invariant builder.Valid()
        invariant builder.markers == m0 + [Marker(p0, |n0|, |d0|)]
        invariant p0 <= builder.pos && n0 <= builder.nodes && d0 <= builder.diags
        invariant builder.nodes + StatementsNodes(builder.pos) == n0 + StatementsNodes(p0)
        invariant builder.diags + StatementsDiags(builder.pos) == d0 + StatementsDiags(p0)
        decreases |builder.tokens| - builder.pos
      {
        ghost var p, n, d := builder.pos, builder.nodes, builder.diags;
        statements.ParseStatement();
        assert builder.nodes + StatementsNodes(builder.pos) == n + StatementsNodes(p) by {
          Associative3(n, statements.StatementNodesAt(p), StatementsNodes(builder.pos));
        }
        assert builder.diags + StatementsDiags(builder.pos) == d + StatementsDiags(p) by {
          Associative3(d, statements.StatementDiagsAt(p), StatementsDiags(builder.pos));
        }
      }
      builder.Done(rootMarker, root);
    }
  }
}
