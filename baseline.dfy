/** The parsers the Angular grammar builds on, which are not part of this
    model: the baseline JavaScript expression and statement grammar behind
    the `super.*` calls, and the message-format (ICU placeholder) parser.
    Each production is represented only by how many significant tokens it
    consumes from a given position; its contract says where the cursor ends,
    the one node it builds over what it consumed, and what it reports. */
module Baseline {
  import opened Tokens
  import opened PsiBuilders

  /** Identifier names of the baseline grammar: identifier tokens and keywords. */
  predicate BaseIsIdentifierName(k: Kind) {
    IsIdentifierToken(k) || k == LetKeyword || k == InKeyword || k == ElseKeyword
  }

  predicate BaseIsReferenceQualifierSeparator(k: Kind) {
    k == Dot
  }

  /** Consume `n` significant tokens under one node of `kind`. */
  method Consume(builder: PsiBuilder, n: nat, kind: NodeKind)
    requires builder.Valid()
    modifies builder
    ensures builder.Valid()
    ensures builder.pos == LookAhead(builder.tokens, old(builder.pos), n)
    ensures builder.nodes == old(builder.nodes) + [Node(kind, old(builder.pos), builder.pos)]
    ensures builder.diags == old(builder.diags) && builder.markers == old(builder.markers)
  {
    var m := builder.Mark();
    for i := 0 to n
      invariant builder.Valid()
      invariant builder.pos == LookAhead(builder.tokens, old(builder.pos), i)
      invariant builder.markers == old(builder.markers) + [old(builder.Here())]
      invariant builder.nodes == old(builder.nodes) && builder.diags == old(builder.diags)
    {
      LookAheadStep(builder.tokens, old(builder.pos), i);
      builder.AdvanceLexer();
    }
    builder.Done(m, kind);
  }

  class BaselineParser {
    const builder: PsiBuilder
    const expressionLength: nat -> nat
    const unaryLength: nat -> nat
    const primaryLength: nat -> nat
    const statementLength: nat -> nat
    const expressionStatementLength: nat -> nat
    const binaryPriority: (Kind, bool, bool) -> int
    const validateLiteral: string -> Option<string>
    /** Where the baseline lets a statement end without a `;` (end of input,
        a line break, a closing brace): its own rule, not modelled here. */
    const semicolonOptional: nat -> bool

    constructor (builder: PsiBuilder, expressionLength: nat -> nat, unaryLength: nat -> nat,
                 primaryLength: nat -> nat, statementLength: nat -> nat,
                 expressionStatementLength: nat -> nat, binaryPriority: (Kind, bool, bool) -> int,
                 validateLiteral: string -> Option<string>, semicolonOptional: nat -> bool)
      ensures this.builder == builder && this.expressionLength == expressionLength
      ensures this.unaryLength == unaryLength && this.primaryLength == primaryLength
      ensures this.statementLength == statementLength
      ensures this.expressionStatementLength == expressionStatementLength
      ensures this.binaryPriority == binaryPriority && this.validateLiteral == validateLiteral
      ensures this.semicolonOptional == semicolonOptional
    {
      this.builder := builder;
      this.expressionLength := expressionLength;
      this.unaryLength := unaryLength;
      this.primaryLength := primaryLength;
      this.statementLength := statementLength;
      this.expressionStatementLength := expressionStatementLength;
      this.binaryPriority := binaryPriority;
      this.validateLiteral := validateLiteral;
      this.semicolonOptional := semicolonOptional;
    }

    function ExpressionEnd(p: nat): (r: nat)
      requires Settled(builder.tokens, p)
      ensures Settled(builder.tokens, r) && p <= r
    {
      LookAhead(builder.tokens, p, expressionLength(p))
    }

    function UnaryEnd(p: nat): (r: nat)
      requires Settled(builder.tokens, p)
      ensures Settled(builder.tokens, r) && p <= r
    {
      LookAhead(builder.tokens, p, unaryLength(p))
    }

    function PrimaryEnd(p: nat): (r: nat)
      requires Settled(builder.tokens, p)
      ensures Settled(builder.tokens, r) && p <= r
    {
      LookAhead(builder.tokens, p, primaryLength(p))
    }

    /** Statements consume at least one token: the baseline reports an
        unparsable token and steps over it. */
    function StatementEnd(p: nat): (r: nat)
      requires Settled(builder.tokens, p)
      ensures Settled(builder.tokens, r) && (p < |builder.tokens| ==> p < r)
    {
      LookAhead(builder.tokens, p, if statementLength(p) == 0 then 1 else statementLength(p))
    }

    /** Expression statements are only started on `{` (an object literal) and
        on `let` (a hash definition, which consumes the keyword), so they
        consume at least one token. */
    function ExpressionStatementEnd(p: nat): (r: nat)
      requires Settled(builder.tokens, p)
      ensures Settled(builder.tokens, r) && (p < |builder.tokens| ==> p < r)
    {
      LookAhead(builder.tokens, p, if expressionStatementLength(p) == 0 then 1 else expressionStatementLength(p))
    }

    /** What the baseline expression builds and reports at `p`: one node
        over what it consumes, or an "expected expression" report when it
        consumes nothing. */
    function ExpressionNodes(p: nat): seq<Node>
      requires Settled(builder.tokens, p)
    {
      if expressionLength(p) == 0 then [] else [Node(BaselineNode, p, ExpressionEnd(p))]
    }

    function ExpressionDiags(p: nat): seq<Diag>
      requires Settled(builder.tokens, p)
    {
      if expressionLength(p) == 0 then [Diag(p, ExpectedExpression)] else []
    }

    /** A unary or primary expression that fails builds nothing. */
    function UnaryNodes(p: nat): seq<Node>
      requires Settled(builder.tokens, p)
    {
      if p < UnaryEnd(p) then [Node(BaselineNode, p, UnaryEnd(p))] else []
    }

    function PrimaryNodes(p: nat): seq<Node>
      requires Settled(builder.tokens, p)
    {
      if p < PrimaryEnd(p) then [Node(BaselineNode, p, PrimaryEnd(p))] else []
    }

    function StatementNodes(p: nat): seq<Node>
      requires Settled(builder.tokens, p)
    {
      [Node(ExpressionStatement, p, StatementEnd(p))]
    }

    function StatementDiags(p: nat): seq<Diag>
      requires Settled(builder.tokens, p)
    {
      if statementLength(p) == 0 then [Diag(p, ExpectedStatement)] else []
    }

    function ExpressionStatementNodes(p: nat): seq<Node>
      requires Settled(builder.tokens, p)
    {
      [Node(ExpressionStatement, p, ExpressionStatementEnd(p))]
    }

    /** Where the `;` check at `p` leaves the cursor, and what it reports. */
    function SemicolonEnd(p: nat): (r: nat)
      requires Settled(builder.tokens, p)
      ensures Settled(builder.tokens, r) && p <= r
    {
      Accept(builder.tokens, p, KindAt(builder.tokens, p) == Semicolon)
    }

    function SemicolonDiags(p: nat): seq<Diag>
      requires Settled(builder.tokens, p)
    {
      if KindAt(builder.tokens, p) == Semicolon || semicolonOptional(p) then [] else [Diag(p, ExpectedSemicolon)]
    }

    method ParseExpression()
      requires builder.Valid()
      modifies builder
      ensures builder.Valid() && builder.Extends()
      ensures builder.pos == ExpressionEnd(old(builder.pos))
      ensures builder.nodes == old(builder.nodes) + ExpressionNodes(old(builder.pos))
      ensures builder.diags == old(builder.diags) + ExpressionDiags(old(builder.pos))
    {
      var n := expressionLength(builder.pos);
      if n == 0 {
        builder.Error(ExpectedExpression);
      } else {
        Consume(builder, n, BaselineNode);
      }
    }

    /** The baseline unary expression; it succeeds when it consumes something. */
    method ParseUnaryExpression() returns (ok: bool)
      requires builder.Valid()
      modifies builder
      ensures builder.Valid() && builder.Extends()
      ensures builder.pos == UnaryEnd(old(builder.pos))
      ensures ok == (old(builder.pos) < builder.pos)
      ensures builder.nodes == old(builder.nodes) + UnaryNodes(old(builder.pos))
      ensures builder.diags == old(builder.diags)
    {
      ok := builder.pos < UnaryEnd(builder.pos);
      if ok {
        Consume(builder, unaryLength(builder.pos), BaselineNode);
      }
    }

    /** The baseline primary expression; it succeeds when it consumes something. */
    method ParsePrimaryExpression() returns (ok: bool)
      requires builder.Valid()
      modifies builder
      ensures builder.Valid() && builder.Extends()
      ensures builder.pos == PrimaryEnd(old(builder.pos))
      ensures ok == (old(builder.pos) < builder.pos)
      ensures builder.nodes == old(builder.nodes) + PrimaryNodes(old(builder.pos))
      ensures builder.diags == old(builder.diags)
    {
      ok := builder.pos < PrimaryEnd(builder.pos);
      if ok {
        Consume(builder, primaryLength(builder.pos), BaselineNode);
      }
    }

    method DoParseStatement()
      requires builder.Valid()
      modifies builder
      ensures builder.Valid() && builder.Extends()
      ensures builder.pos == StatementEnd(old(builder.pos))
      ensures builder.nodes == old(builder.nodes) + StatementNodes(old(builder.pos))
      ensures builder.diags == old(builder.diags) + StatementDiags(old(builder.pos))
    {
      var n := statementLength(builder.pos);
      if n == 0 {
        builder.Error(ExpectedStatement);
        n := 1;
      }
      Consume(builder, n, ExpressionStatement);
    }

    method ParseExpressionStatement()
      requires builder.Valid()
      modifies builder
      ensures builder.Valid() && builder.Extends()
      ensures builder.pos == ExpressionStatementEnd(old(builder.pos))
      ensures builder.nodes == old(builder.nodes) + ExpressionStatementNodes(old(builder.pos))
      ensures builder.diags == old(builder.diags)
    {
      var n := expressionStatementLength(builder.pos);
      Consume(builder, if n == 0 then 1 else n, ExpressionStatement);
    }

    /** Consume a `;`, or report that it is missing where the baseline
        requires one. */
    method CheckForSemicolon()
      requires builder.Valid()
      modifies builder
      ensures builder.Valid()
      ensures builder.pos == SemicolonEnd(old(builder.pos))
      ensures builder.diags == old(builder.diags) + SemicolonDiags(old(builder.pos))
      ensures builder.nodes == old(builder.nodes) && builder.markers == old(builder.markers)
    {
      if builder.TokenType() == Semicolon {
        builder.AdvanceLexer();
      } else if !semicolonOptional(builder.pos) {
        builder.Error(ExpectedSemicolon);
      }
    }
  }

  /** The message-format parser: all or nothing. */
  class MessageFormatParser {
    const builder: PsiBuilder
    const placeholderLength: nat -> nat

    constructor (builder: PsiBuilder, placeholderLength: nat -> nat)
      ensures this.builder == builder && this.placeholderLength == placeholderLength
    {
      this.builder := builder;
      this.placeholderLength := placeholderLength;
    }

    /** A placeholder starts at `p`. */
    predicate Recognizes(p: nat) {
      p < |builder.tokens| && placeholderLength(p) > 0
    }

    function MessageEnd(p: nat): nat
      requires Settled(builder.tokens, p)
    {
      LookAhead(builder.tokens, p, placeholderLength(p))
    }

    /** Either parses a placeholder and returns true having advanced, or
        returns false leaving the builder exactly as it was. */
    method ParseMessage() returns (ok: bool)
      requires builder.Valid()
      modifies builder
      ensures builder.Valid()
      ensures ok == Recognizes(old(builder.pos))
      ensures ok ==> builder.Extends() && old(builder.pos) < builder.pos == MessageEnd(old(builder.pos))
      ensures ok ==> builder.nodes == old(builder.nodes) + [Node(MessageFormatNode, old(builder.pos), builder.pos)]
      ensures ok ==> builder.diags == old(builder.diags)
      ensures !ok ==> builder.Untouched()
    {
      var n := placeholderLength(builder.pos);
      if n > 0 && !builder.Eof() {
        Consume(builder, n, MessageFormatNode);
        ok := true;
      } else {
        ok := false;
      }
    }
  }
}
