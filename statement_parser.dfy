/** The Angular statement grammar: dispatch between a braced expression, the
    repeat forms, the `cond; then a; else b` conditional, `let x of coll`,
    `let x = e`, and the baseline statements. */
module StatementParser {
  import opened Tokens
  import opened PsiBuilders
  import opened Baseline
  import opened ExpressionParser

  /** `then a` or `else b`: where a branch of `branch` starting at `p` ends,
      what it builds and what it reports. The argument must be exactly an
      identifier. */
  function BranchEnd(t: seq<Token>, p: nat, branch: Kind): (r: nat)
    requires Settled(t, p)
    ensures Settled(t, r) && p <= r
    ensures KindAt(t, p) == branch && p < |t| ==> p < r
  {
    if KindAt(t, p) == branch then
      var q := Next(t, p);
      Accept(t, q, KindAt(t, q) == Identifier)
    else p
  }

  function BranchNodes(t: seq<Token>, p: nat, branch: Kind): seq<Node>
    requires Settled(t, p)
  {
    var q := Next(t, p);
    if KindAt(t, p) == branch && KindAt(t, q) == Identifier then [Node(ReferenceExpression, q, Next(t, q))] else []
  }

  function BranchDiags(t: seq<Token>, p: nat, branch: Kind): seq<Diag>
    requires Settled(t, p)
  {
    var q := Next(t, p);
    if KindAt(t, p) == branch && KindAt(t, q) != Identifier then [Diag(q, ExpectedIdentifier)] else []
  }

  /** Past the `;` at `s` that ends a condition, the optional `let x` and
      the token after it: where the branches of a conditional start, and
      what the `let x` builds and reports. */
  function IfPreludeEnd(t: seq<Token>, s: nat): (r: nat)
    requires Settled(t, s)
    ensures Settled(t, r) && (s < |t| ==> s < r)
  {
    var p2 := Next(t, s);
    if KindAt(t, p2) == LetKeyword then Next(t, HashEnd(t, p2)) else p2
  }

  function IfPreludeNodes(t: seq<Token>, s: nat): seq<Node>
    requires Settled(t, s)
  {
    var p2 := Next(t, s);
    if KindAt(t, p2) == LetKeyword then HashNodes(t, p2) else []
  }

  function IfPreludeDiags(t: seq<Token>, s: nat): seq<Diag>
    requires Settled(t, s)
  {
    var p2 := Next(t, s);
    if KindAt(t, p2) == LetKeyword then HashDiags(t, p2) else []
  }

  /** Where the `else` branch of a conditional whose branches start at `b`
      starts: after `then a` and an optional `;`. */
  function ElseStart(t: seq<Token>, b: nat): (r: nat)
    requires Settled(t, b)
    ensures Settled(t, r) && BranchEnd(t, b, Then) <= r
  {
    var p4 := BranchEnd(t, b, Then);
    Accept(t, p4, KindAt(t, p4) == Semicolon)
  }

  /** Where the branches of a conditional starting at `b` end, and what they
      build and report: `then a`, an optional `;` and `else b`. */
  function IfBranchesEnd(t: seq<Token>, b: nat): (r: nat)
    requires Settled(t, b)
    ensures Settled(t, r) && b <= r
    ensures (KindAt(t, b) == Then || KindAt(t, b) == ElseKeyword) ==> b < r
  {
    BranchEnd(t, ElseStart(t, b), ElseKeyword)
  }

  function IfBodyNodes(t: seq<Token>, b: nat): seq<Node>
    requires Settled(t, b)
  {
    BranchNodes(t, b, Then) + BranchNodes(t, ElseStart(t, b), ElseKeyword)
  }

  function IfBodyDiags(t: seq<Token>, b: nat): seq<Diag>
    requires Settled(t, b)
  {
    BranchDiags(t, b, Then) + BranchDiags(t, ElseStart(t, b), ElseKeyword)
  }

  /** Past the trailing `;` check and an optional trailing `let x` after a
      conditional ending at `e`, and what that `let x` builds. */
  function IfTrailEnd(t: seq<Token>, e: nat): (r: nat)
    requires Settled(t, e)
    ensures Settled(t, r) && e <= r
  {
    var p7 := Accept(t, e, KindAt(t, e) == Semicolon);
    if KindAt(t, p7) == LetKeyword then HashEnd(t, p7) else p7
  }

  function IfTrailNodes(t: seq<Token>, e: nat): seq<Node>
    requires Settled(t, e)
  {
    var p7 := Accept(t, e, KindAt(t, e) == Semicolon);
    if KindAt(t, p7) == LetKeyword then HashNodes(t, p7) else []
  }

  /** The prelude, the branches and the trail of a conditional build no
      IF_STATEMENT of their own. */
  lemma IfPreludeHoldsNoIf(t: seq<Token>, s: nat)
    requires Settled(t, s)
    ensures CountKind(IfPreludeNodes(t, s), IfStatement) == 0
  {
    if KindAt(t, Next(t, s)) == LetKeyword {
      HashNodesHoldNo(t, Next(t, s), IfStatement);
    }
  }

  lemma IfBodyHoldsNoIf(t: seq<Token>, b: nat)
    requires Settled(t, b)
    ensures CountKind(IfBodyNodes(t, b), IfStatement) == 0
  {
    var thenNodes, elseNodes := BranchNodes(t, b, Then), BranchNodes(t, ElseStart(t, b), ElseKeyword);
    CountKindNone(thenNodes, IfStatement);
    CountKindNone(elseNodes, IfStatement);
    CountKindAppend(thenNodes, elseNodes, IfStatement);
  }

  lemma IfTrailHoldsNoIf(t: seq<Token>, e: nat)
    requires Settled(t, e)
    ensures CountKind(IfTrailNodes(t, e), IfStatement) == 0
  {
    var p7 := Accept(t, e, KindAt(t, e) == Semicolon);
    if KindAt(t, p7) == LetKeyword {
      HashNodesHoldNo(t, p7, IfStatement);
    }
  }

  /** Which production a statement was parsed as. */
  datatype Route =
    | BlockStatement | InStatement | NgIfStatement | NgForStatement
    | LetExpressionStatement | ParenthesizedInStatement | BaselineStatement

  class Angular2StatementParser {
    const builder: PsiBuilder
    const exprs: Angular2ExpressionParser
    const base: BaselineParser

    predicate Wired() {
      exprs.Wired() && exprs.builder == builder && exprs.base == base
    }

    constructor (exprs: Angular2ExpressionParser)
      requires exprs.Wired()
      ensures Wired() && this.exprs == exprs
    {
      this.builder := exprs.builder;
      this.exprs := exprs;
      this.base := exprs.base;
    }

    /** Where the branches of a conditional start, once its condition and the
        `;` after it are consumed: past the optional `let x` and the token
        after it. */
    function BranchesStart(p0: nat): (r: nat)
      requires Wired() && Settled(builder.tokens, p0)
      ensures Settled(builder.tokens, r)
    {
      IfPreludeEnd(builder.tokens, base.ExpressionEnd(p0))
    }

    /** The conditional matches at `p0`: a `;` follows the condition, and
        `then` or `else` follows it (after an optional `let x`). */
    predicate NgIfMatches(p0: nat)
      requires Wired() && Settled(builder.tokens, p0)
    {
      var t := builder.tokens;
      && KindAt(t, base.ExpressionEnd(p0)) == Semicolon
      && (KindAt(t, BranchesStart(p0)) == Then || KindAt(t, BranchesStart(p0)) == ElseKeyword)
    }

    /** Where the IF_STATEMENT node ends. */
    function NgIfEnd(p0: nat): (r: nat)
      requires Wired() && Settled(builder.tokens, p0)
      ensures Settled(builder.tokens, r)
    {
      IfBranchesEnd(builder.tokens, BranchesStart(p0))
    }

    /** Where a matched conditional leaves the cursor. */
    function NgIfTrailEnd(p0: nat): (r: nat)
      requires Wired() && Settled(builder.tokens, p0)
      ensures Settled(builder.tokens, r)
      ensures NgIfMatches(p0) ==> p0 < r
    {
      IfTrailEnd(builder.tokens, NgIfEnd(p0))
    }

    method ParseBranch(branchType: Kind)
      requires Wired() && builder.Valid()
      modifies builder
      ensures builder.Valid()
      ensures var t, p0 := builder.tokens, old(builder.pos);
        && builder.pos == BranchEnd(t, p0, branchType)
        && builder.nodes == old(builder.nodes) + BranchNodes(t, p0, branchType)
        && builder.diags == old(builder.diags) + BranchDiags(t, p0, branchType)
      ensures builder.markers == old(builder.markers)
    {
      if builder.TokenType() == branchType {
        builder.AdvanceLexer();
        if builder.TokenType() == Identifier {
          builder.BuildTokenElement(ReferenceExpression);
        } else {
          builder.Error(ExpectedIdentifier);
        }
      }
    }

    /** What the `;` check and the optional `let x` after a conditional
        ending at `e` report. */
    function IfTrailDiags(e: nat): seq<Diag>
      requires Wired() && Settled(builder.tokens, e)
    {
      var t := builder.tokens;
      var p7 := Accept(t, e, KindAt(t, e) == Semicolon);
      if KindAt(t, p7) == LetKeyword then base.SemicolonDiags(e) + HashDiags(t, p7) else base.SemicolonDiags(e)
    }

    /** What a matched conditional builds after its condition: the prelude's
        `let x`, the branches, one IF_STATEMENT from the condition to the end
        of the branches, then the trailing `let x`. */
    function NgIfTailNodes(p0: nat): seq<Node>
      requires Wired() && Settled(builder.tokens, p0)
    {
      var t := builder.tokens;
      IfPreludeNodes(t, base.ExpressionEnd(p0)) + IfBodyNodes(t, BranchesStart(p0))
      + [Node(IfStatement, p0, NgIfEnd(p0))] + IfTrailNodes(t, NgIfEnd(p0))
    }

    function NgIfTailDiags(p0: nat): seq<Diag>
      requires Wired() && Settled(builder.tokens, p0)
    {
      var t := builder.tokens;
      IfPreludeDiags(t, base.ExpressionEnd(p0)) + IfBodyDiags(t, BranchesStart(p0)) + IfTrailDiags(NgIfEnd(p0))
    }

    /** What a matched conditional builds and reports, condition included. */
    function NgIfNodes(p0: nat): seq<Node>
      requires Wired() && Settled(builder.tokens, p0)
    {
      base.ExpressionNodes(p0) + NgIfTailNodes(p0)
    }

    function NgIfDiags(p0: nat): seq<Diag>
      requires Wired() && Settled(builder.tokens, p0)
    {
      base.ExpressionDiags(p0) + NgIfTailDiags(p0)
    }

    /** A matched conditional closes exactly one IF_STATEMENT, spanning the
        condition and the branches. */
    lemma NgIfClosesOneIfStatement(p0: nat)
      requires Wired() && Settled(builder.tokens, p0)
      ensures Node(IfStatement, p0, NgIfEnd(p0)) in NgIfNodes(p0)
      ensures CountKind(NgIfNodes(p0), IfStatement) == 1
    {
      var t := builder.tokens;
      var s, b, e := base.ExpressionEnd(p0), BranchesStart(p0), NgIfEnd(p0);
      var cond, tail := base.ExpressionNodes(p0), NgIfTailNodes(p0);
      var prelude, body := IfPreludeNodes(t, s), IfBodyNodes(t, b);
      var ifNode, trail := [Node(IfStatement, p0, e)], IfTrailNodes(t, e);
      assert tail == prelude + body + ifNode + trail;
      assert ifNode[0] in ifNode;
      CountKindNone(cond, IfStatement);
      IfPreludeHoldsNoIf(t, s);
      IfBodyHoldsNoIf(t, b);
      IfTrailHoldsNoIf(t, e);
      assert CountKind(ifNode, IfStatement) == 1;
      CountKindAppend(prelude, body, IfStatement);
      CountKindAppend(prelude + body, ifNode, IfStatement);
      CountKindAppend(prelude + body + ifNode, trail, IfStatement);
      CountKindAppend(cond, tail, IfStatement);
    }

    /** `cond; then a; else b`, tried speculatively: when the `;` after the
        condition or the `then`/`else` keyword is missing, the attempt is
        rolled back and leaves no trace. */
    method TryParseNgIfStatement() returns (ok: bool)
      requires Wired() && builder.Valid()
      modifies builder
      ensures builder.Valid() && builder.Extends()
      ensures ok == NgIfMatches(old(builder.pos))
      ensures !ok ==> builder.Untouched()
      ensures ok ==> builder.pos == NgIfTrailEnd(old(builder.pos)) && old(builder.pos) < builder.pos
      ensures ok ==> builder.nodes == old(builder.nodes) + NgIfNodes(old(builder.pos))
      ensures ok ==> builder.diags == old(builder.diags) + NgIfDiags(old(builder.pos))
    {
      ghost var t, p0, n0, d0, m0 := builder.tokens, builder.pos, builder.nodes, builder.diags, builder.markers;
      var ngIf := builder.Mark();
      exprs.base.ParseExpression();
      ok := false;
      if builder.TokenType() == Semicolon {
        ok := ParseIfAfterCondition(ngIf, p0);
        if ok {
          Associative3(n0, base.ExpressionNodes(p0), NgIfTailNodes(p0));
          Associative3(d0, base.ExpressionDiags(p0), NgIfTailDiags(p0));
        }
      }
      if !ok {
        assert builder.markers[ngIf] == Marker(p0, |n0|, |d0|);
        builder.RollbackTo(ngIf);
        assert builder.pos == p0 && builder.nodes == n0 && builder.diags == d0 && builder.markers == m0;
      }
    }

    /** Once the condition and its `;` are parsed: the prelude, then the
        branches if `then` or `else` comes next. Without them, nothing is
        closed and the marker `ngIf` is left open for the rollback. */
    method ParseIfAfterCondition(ngIf: nat, ghost p0: nat) returns (ok: bool)
      requires Wired() && builder.Valid() && Settled(builder.tokens, p0)
      requires ngIf + 1 == |builder.markers| && builder.markers[ngIf].pos == p0
      requires builder.pos == base.ExpressionEnd(p0) && KindAt(builder.tokens, builder.pos) == Semicolon
      modifies builder
      ensures builder.Valid()
      ensures ok == NgIfMatches(p0)
      ensures !ok ==> builder.pos == BranchesStart(p0)
      ensures !ok ==> builder.markers == old(builder.markers)
      ensures !ok ==> builder.nodes == old(builder.nodes) + IfPreludeNodes(builder.tokens, old(builder.pos))
      ensures !ok ==> builder.diags == old(builder.diags) + IfPreludeDiags(builder.tokens, old(builder.pos))
      ensures ok ==> builder.pos == NgIfTrailEnd(p0) && p0 < builder.pos
      ensures ok ==> builder.nodes == old(builder.nodes) + NgIfTailNodes(p0)
      ensures ok ==> builder.diags == old(builder.diags) + NgIfTailDiags(p0)
      ensures ok ==> builder.markers == old(builder.markers[..ngIf])
    {
      ghost var t, s, n1, d1 := builder.tokens, builder.pos, builder.nodes, builder.diags;
      assert p0 <= s < |t|;
      ParseIfPrelude();
      ghost var b := builder.pos;
      assert b == BranchesStart(p0);
      ok := builder.TokenType() == Then || builder.TokenType() == ElseKeyword;
      if ok {
        assert p0 < b;
        ParseNgIfBranches(ngIf, p0);
        ghost var e := IfBranchesEnd(t, b);
        Associative(n1, IfPreludeNodes(t, s), IfBodyNodes(t, b), [Node(IfStatement, p0, e)], IfTrailNodes(t, e));
        Associative4(d1, IfPreludeDiags(t, s), IfBodyDiags(t, b), IfTrailDiags(e));
      }
    }

    /** Step past the `;` after the condition, then over an optional `let x`
        and the token after it. */
    method ParseIfPrelude()
      requires Wired() && builder.Valid()
      modifies builder
      ensures builder.Valid()
      ensures builder.pos == IfPreludeEnd(builder.tokens, old(builder.pos))
      ensures builder.nodes == old(builder.nodes) + IfPreludeNodes(builder.tokens, old(builder.pos))
      ensures builder.diags == old(builder.diags) + IfPreludeDiags(builder.tokens, old(builder.pos))
      ensures builder.markers == old(builder.markers)
    {
      builder.AdvanceLexer();
      if builder.TokenType() == LetKeyword {
        exprs.ParseHashDefinition();
        builder.AdvanceLexer();
      }
    }

    /** The committed part of the conditional, once `then` or `else` is seen:
        the branches, then the IF_STATEMENT over the marker `ngIf`, then the
        trailing `;` check and an optional trailing `let x`. */
    method ParseNgIfBranches(ngIf: nat, ghost p0: nat)
      requires Wired() && builder.Valid()
      requires ngIf + 1 == |builder.markers| && builder.markers[ngIf].pos == p0
      modifies builder
      ensures builder.Valid()
      ensures builder.pos == IfTrailEnd(builder.tokens, IfBranchesEnd(builder.tokens, old(builder.pos)))
      ensures builder.nodes == old(builder.nodes) + IfBodyNodes(builder.tokens, old(builder.pos))
        + [Node(IfStatement, p0, IfBranchesEnd(builder.tokens, old(builder.pos)))]
        + IfTrailNodes(builder.tokens, IfBranchesEnd(builder.tokens, old(builder.pos)))
      ensures builder.diags == old(builder.diags) + IfBodyDiags(builder.tokens, old(builder.pos))
        + IfTrailDiags(IfBranchesEnd(builder.tokens, old(builder.pos)))
      ensures builder.markers == old(builder.markers[..ngIf])
    {
      ParseIfBody();
      builder.Done(ngIf, IfStatement);
      ParseIfTrail();
    }

    /** `then a`, an optional `;`, `else b`. */
    method ParseIfBody()
      requires Wired() && builder.Valid()
      modifies builder
      ensures builder.Valid()
      ensures builder.pos == IfBranchesEnd(builder.tokens, old(builder.pos))
      ensures builder.nodes == old(builder.nodes) + IfBodyNodes(builder.tokens, old(builder.pos))
      ensures builder.diags == old(builder.diags) + IfBodyDiags(builder.tokens, old(builder.pos))
      ensures builder.markers == old(builder.markers)
    {
      ghost var t, b, n0, d0 := builder.tokens, builder.pos, builder.nodes, builder.diags;
      ParseBranch(Then);
      if builder.TokenType() == Semicolon {
        builder.AdvanceLexer();
      }
      ParseBranch(ElseKeyword);
      Associative3(n0, BranchNodes(t, b, Then), BranchNodes(t, ElseStart(t, b), ElseKeyword));
      Associative3(d0, BranchDiags(t, b, Then), BranchDiags(t, ElseStart(t, b), ElseKeyword));
    }

    /** The `;` check and the optional `let x` after a conditional. */
    method ParseIfTrail()
      requires Wired() && builder.Valid()
      modifies builder
      ensures builder.Valid()
      ensures builder.pos == IfTrailEnd(builder.tokens, old(builder.pos))
      ensures builder.nodes == old(builder.nodes) + IfTrailNodes(builder.tokens, old(builder.pos))
      ensures builder.diags == old(builder.diags) + IfTrailDiags(old(builder.pos))
      ensures builder.markers == old(builder.markers)
    {
      ghost var t, e, d0 := builder.tokens, builder.pos, builder.diags;
      base.CheckForSemicolon();
      if builder.TokenType() == LetKeyword {
        ghost var p7 := builder.pos;
        exprs.ParseHashDefinition();
        Associative3(d0, base.SemicolonDiags(e), HashDiags(t, p7));
      }
    }

    /** What `x in coll` or `(k, v) in coll` builds as a statement: the
        repeat expression wrapped in an EXPRESSION_STATEMENT. */
    function InStatementNodes(p0: nat): seq<Node>
      requires Wired() && Settled(builder.tokens, p0)
    {
      exprs.InNodes(p0) + [Node(ExpressionStatement, p0, exprs.InEnd(p0))]
    }

    /** A repeat statement ends with its REPEAT_EXPRESSION and then the
        EXPRESSION_STATEMENT, both over its whole span. */
    lemma InStatementShape(p0: nat)
      requires Wired() && Settled(builder.tokens, p0) && BindingFound(builder.tokens, p0)
      ensures var s, e := InStatementNodes(p0), exprs.InEnd(p0);
        && p0 < e && 2 <= |s|
        && s[|s| - 2] == Node(RepeatExpression, p0, e)
        && s[|s| - 1] == Node(ExpressionStatement, p0, e)
    {
      exprs.InExpressionShape(p0);
    }

    /** A repeat expression wrapped in an EXPRESSION_STATEMENT; when the repeat
        expression fails, nothing is left behind. */
    method ParseInStatement() returns (ok: bool)
      requires Wired() && builder.Valid()
      modifies builder
      ensures builder.Valid() && builder.Extends()
      ensures ok == BindingFound(builder.tokens, old(builder.pos))
      ensures !ok ==> builder.Untouched()
      ensures ok ==> builder.pos == exprs.InEnd(old(builder.pos)) && old(builder.pos) < builder.pos
      ensures ok ==> builder.nodes == old(builder.nodes) + InStatementNodes(old(builder.pos))
      ensures ok ==> builder.diags == old(builder.diags) + exprs.InDiags(old(builder.pos))
    {
      var statement := builder.Mark();
      ok := exprs.ParseInExpression();
      if ok {
        builder.Done(statement, ExpressionStatement);
      } else {
        builder.Drop(statement);
      }
    }

    /** Where `let x of coll;` ends, what it builds and what it reports: the
        for expression, its `;` check and an EXPRESSION_STATEMENT over both. */
    function ForStatementEnd(p0: nat): (r: nat)
      requires Wired() && Settled(builder.tokens, p0)
      ensures Settled(builder.tokens, r) && (p0 < |builder.tokens| ==> p0 < r)
    {
      base.SemicolonEnd(exprs.ForEnd(p0))
    }

    function ForStatementNodes(p0: nat): seq<Node>
      requires Wired() && Settled(builder.tokens, p0)
    {
      exprs.ForNodes(p0) + [Node(ExpressionStatement, p0, ForStatementEnd(p0))]
    }

    function ForStatementDiags(p0: nat): seq<Diag>
      requires Wired() && Settled(builder.tokens, p0)
    {
      exprs.ForDiags(p0) + base.SemicolonDiags(exprs.ForEnd(p0))
    }

    /** `let x of coll;` ends with an EXPRESSION_STATEMENT over its span,
        right after the FOR_EXPRESSION when `of` follows the hash definition;
        otherwise it is the hash definition and the statement alone. */
    lemma ForStatementShape(p0: nat)
      requires Wired() && Settled(builder.tokens, p0)
      ensures var s := ForStatementNodes(p0);
        && 2 <= |s|
        && s[|s| - 1] == Node(ExpressionStatement, p0, ForStatementEnd(p0))
        && (exprs.ForFollows(p0) ==> s[|s| - 2] == Node(ForExpression, p0, exprs.ForEnd(p0)))
        && (!exprs.ForFollows(p0) ==>
              s == HashNodes(builder.tokens, p0) + [Node(ExpressionStatement, p0, ForStatementEnd(p0))])
    {
      exprs.ForExpressionShape(p0);
    }

    /** `let x of coll;` as an EXPRESSION_STATEMENT. parseForExpression always
        succeeds, so the statement is always closed. */
    method ParseNgForStatement()
      requires Wired() && builder.Valid()
      modifies builder
      ensures builder.Valid() && builder.Extends()
      ensures builder.pos == ForStatementEnd(old(builder.pos))
      ensures old(builder.pos) < |builder.tokens| ==> old(builder.pos) < builder.pos
      ensures builder.nodes == old(builder.nodes) + ForStatementNodes(old(builder.pos))
      ensures builder.diags == old(builder.diags) + ForStatementDiags(old(builder.pos))
    {
      var statement := builder.Mark();
      ParseForClause();
      builder.Done(statement, ExpressionStatement);
    }

    /** The for expression and the `;` check after it. */
    method ParseForClause()
      requires Wired() && builder.Valid()
      modifies builder
      ensures builder.Valid()
      ensures builder.pos == ForStatementEnd(old(builder.pos))
      ensures old(builder.pos) < |builder.tokens| ==> old(builder.pos) < builder.pos
      ensures builder.nodes == old(builder.nodes) + exprs.ForNodes(old(builder.pos))
      ensures builder.diags == old(builder.diags) + ForStatementDiags(old(builder.pos))
      ensures builder.markers == old(builder.markers)
    {
      ghost var t, p0, d0 := builder.tokens, builder.pos, builder.diags;
      var parsed := exprs.ParseForExpression();
      base.CheckForSemicolon();
      Associative3(d0, exprs.ForDiags(p0), base.SemicolonDiags(exprs.ForEnd(p0)));
    }

    /** Where `{ ... }` followed by the `;` check ends. */
    function BlockEnd(p0: nat): (r: nat)
      requires Wired() && Settled(builder.tokens, p0)
      ensures Settled(builder.tokens, r) && (p0 < |builder.tokens| ==> p0 < r)
    {
      base.SemicolonEnd(base.ExpressionStatementEnd(p0))
    }

    /** Statement dispatch, in order: `{`; an identifier followed by `in`
        (whatever the repeat expression makes of it); the conditional; `let`
        (a for statement unless the token two ahead is `=`); `(` starting a
        key-value repeat expression; the baseline statement. The statement
        is parsed along the route taken, and consumes at least one token. */
    method DoParseStatement() returns (route: Route)
      requires Wired() && builder.Valid()
      modifies builder
      ensures builder.Valid() && builder.Extends()
      ensures route == RouteAt(old(builder.pos))
      ensures old(builder.pos) < |builder.tokens| ==> old(builder.pos) < builder.pos
      ensures route == BlockStatement ==>
        && builder.pos == BlockEnd(old(builder.pos))
        && builder.nodes == old(builder.nodes) + base.ExpressionStatementNodes(old(builder.pos))
        && builder.diags == old(builder.diags) + base.SemicolonDiags(base.ExpressionStatementEnd(old(builder.pos)))
      ensures route == InStatement ==>
        && builder.pos == exprs.InEnd(old(builder.pos))
        && builder.nodes == old(builder.nodes) + InStatementNodes(old(builder.pos))
        && builder.diags == old(builder.diags) + exprs.InDiags(old(builder.pos))
      ensures route == NgIfStatement ==>
        && builder.pos == NgIfTrailEnd(old(builder.pos))
        && builder.nodes == old(builder.nodes) + NgIfNodes(old(builder.pos))
        && builder.diags == old(builder.diags) + NgIfDiags(old(builder.pos))
      ensures route == NgForStatement ==>
        && builder.pos == ForStatementEnd(old(builder.pos))
        && builder.nodes == old(builder.nodes) + ForStatementNodes(old(builder.pos))
        && builder.diags == old(builder.diags) + ForStatementDiags(old(builder.pos))
      ensures route == LetExpressionStatement ==>
        && builder.pos == base.ExpressionStatementEnd(old(builder.pos))
        && builder.nodes == old(builder.nodes) + base.ExpressionStatementNodes(old(builder.pos))
        && builder.diags == old(builder.diags)
      ensures route == ParenthesizedInStatement ==>
        && builder.pos == exprs.InEnd(old(builder.pos))
        && builder.nodes == old(builder.nodes) + InStatementNodes(old(builder.pos))
        && builder.diags == old(builder.diags) + exprs.InDiags(old(builder.pos))
      ensures route == BaselineStatement ==>
        && builder.pos == base.StatementEnd(old(builder.pos))
        && builder.nodes == old(builder.nodes) + base.StatementNodes(old(builder.pos))
        && builder.diags == old(builder.diags) + base.StatementDiags(old(builder.pos))
    {
      var firstToken := builder.TokenType();
      if firstToken == LBrace {
        ParseBlockStatement();
        route := BlockStatement;
      } else {
        var inFollows := IsIdentifierToken(firstToken) && builder.LookAhead(1) == InKeyword;
        if inFollows {
          var parsed := ParseInStatement();
          route := InStatement;
        } else {
          var matched := TryParseNgIfStatement();
          if matched {
            route := NgIfStatement;
          } else {
            route := ParseOtherStatement(firstToken);
          }
        }
      }
    }

    /** The route the dispatch takes for a statement starting at `p0`. */
    function RouteAt(p0: nat): Route
      requires Wired() && Settled(builder.tokens, p0)
    {
      var t := builder.tokens;
      var first := KindAt(t, p0);
      if first == LBrace then BlockStatement
      else if IsIdentifierToken(first) && KindAt(t, LookAhead(t, p0, 1)) == InKeyword then InStatement
      else if NgIfMatches(p0) then NgIfStatement
      else OtherRoute(p0)
    }

    /** Where the statement starting at `p0` ends, along its route. */
    function StatementEndAt(p0: nat): (r: nat)
      requires Wired() && Settled(builder.tokens, p0)
      ensures Settled(builder.tokens, r)
      ensures p0 < |builder.tokens| ==> p0 < r
    {
      match RouteAt(p0)
      case BlockStatement => BlockEnd(p0)
      case InStatement => exprs.InEnd(p0)
      case NgIfStatement => NgIfTrailEnd(p0)
      case NgForStatement => ForStatementEnd(p0)
      case LetExpressionStatement => base.ExpressionStatementEnd(p0)
      case ParenthesizedInStatement => exprs.InEnd(p0)
      case BaselineStatement => base.StatementEnd(p0)
    }

    /** The nodes the statement starting at `p0` builds, along its route. */
    function StatementNodesAt(p0: nat): seq<Node>
      requires Wired() && Settled(builder.tokens, p0)
    {
      match RouteAt(p0)
      case BlockStatement => base.ExpressionStatementNodes(p0)
      case InStatement => InStatementNodes(p0)
      case NgIfStatement => NgIfNodes(p0)
      case NgForStatement => ForStatementNodes(p0)
      case LetExpressionStatement => base.ExpressionStatementNodes(p0)
      case ParenthesizedInStatement => InStatementNodes(p0)
      case BaselineStatement => base.StatementNodes(p0)
    }

    /** What the statement starting at `p0` reports, along its route. */
    function StatementDiagsAt(p0: nat): seq<Diag>
      requires Wired() && Settled(builder.tokens, p0)
    {
      match RouteAt(p0)
      case BlockStatement => base.SemicolonDiags(base.ExpressionStatementEnd(p0))
      case InStatement => exprs.InDiags(p0)
      case NgIfStatement => NgIfDiags(p0)
      case NgForStatement => ForStatementDiags(p0)
      case LetExpressionStatement => []
      case ParenthesizedInStatement => exprs.InDiags(p0)
      case BaselineStatement => base.StatementDiags(p0)
    }

    /** Every statement closes its own node starting where it starts: a
        conditional its one IF_STATEMENT; every other route an
        EXPRESSION_STATEMENT as its last node, over the whole statement
        except on `{`, whose extra `;` check comes after the node. */
    lemma StatementShape(p0: nat)
      requires Wired() && Settled(builder.tokens, p0)
      ensures var s, e := StatementNodesAt(p0), StatementEndAt(p0);
        match RouteAt(p0)
        case NgIfStatement =>
          Node(IfStatement, p0, NgIfEnd(p0)) in s && CountKind(s, IfStatement) == 1
        case BlockStatement =>
          s == [Node(ExpressionStatement, p0, base.ExpressionStatementEnd(p0))]
        case _ =>
          s != [] && s[|s| - 1] == Node(ExpressionStatement, p0, e)
    {
      match RouteAt(p0)
      case NgIfStatement => NgIfClosesOneIfStatement(p0);
      case InStatement => InStatementShape(p0);
      case ParenthesizedInStatement => InStatementShape(p0);
      case NgForStatement => ForStatementShape(p0);
      case _ =>
    }

    /** One statement, parsed along the route the dispatch takes at the
        cursor: where it ends, what it builds and what it reports. */
    method ParseStatement()
      requires Wired() && builder.Valid()
      modifies builder
      ensures builder.Valid() && builder.Extends()
      ensures builder.pos == StatementEndAt(old(builder.pos))
      ensures builder.nodes == old(builder.nodes) + StatementNodesAt(old(builder.pos))
      ensures builder.diags == old(builder.diags) + StatementDiagsAt(old(builder.pos))
    {
      var route := DoParseStatement();
    }

    /** The routes tried after the conditional, in order. */
    function OtherRoute(p0: nat): Route
      requires Settled(builder.tokens, p0)
    {
      var t := builder.tokens;
      var first := KindAt(t, p0);
      if first == LetKeyword then
        (if KindAt(t, LookAhead(t, p0, 2)) != Eq then NgForStatement else LetExpressionStatement)
      else if first == LPar && KindAt(t, ScanKeyValue(t, p0).end) == InKeyword then ParenthesizedInStatement
      else BaselineStatement
    }

    /** `{ ... }` as an expression statement, then the `;` check. */
    method ParseBlockStatement()
      requires Wired() && builder.Valid()
      modifies builder
      ensures builder.Valid() && builder.Extends()
      ensures old(builder.pos) < |builder.tokens| ==> old(builder.pos) < builder.pos
      ensures builder.pos == BlockEnd(old(builder.pos))
      ensures builder.nodes == old(builder.nodes) + base.ExpressionStatementNodes(old(builder.pos))
      ensures builder.diags == old(builder.diags) + base.SemicolonDiags(base.ExpressionStatementEnd(old(builder.pos)))
    {
      base.ParseExpressionStatement();
      base.CheckForSemicolon();
    }

    /** `let`: a for statement unless the token two ahead is `=`, in which
        case a baseline expression statement. */
    method ParseLetStatement() returns (route: Route)
      requires Wired() && builder.Valid()
      modifies builder
      ensures builder.Valid() && builder.Extends()
      ensures route == (if KindAt(builder.tokens, LookAhead(builder.tokens, old(builder.pos), 2)) != Eq
                        then NgForStatement else LetExpressionStatement)
      ensures old(builder.pos) < |builder.tokens| ==> old(builder.pos) < builder.pos
      ensures route == NgForStatement ==>
        && builder.pos == ForStatementEnd(old(builder.pos))
        && builder.nodes == old(builder.nodes) + ForStatementNodes(old(builder.pos))
        && builder.diags == old(builder.diags) + ForStatementDiags(old(builder.pos))
      ensures route == LetExpressionStatement ==>
        && builder.pos == base.ExpressionStatementEnd(old(builder.pos))
        && builder.nodes == old(builder.nodes) + base.ExpressionStatementNodes(old(builder.pos))
        && builder.diags == old(builder.diags)
    {
      if builder.LookAhead(2) != Eq {
        ParseNgForStatement();
        route := NgForStatement;
      } else {
        base.ParseExpressionStatement();
        route := LetExpressionStatement;
      }
    }

    /** The tail of the dispatch, once `{`, `x in` and the conditional are
        ruled out: `let` statements, `(k, v) in coll`, and the baseline. */
    method ParseOtherStatement(firstToken: Kind) returns (route: Route)
      requires Wired() && builder.Valid()
      requires firstToken == builder.TokenType()
      modifies builder
      ensures builder.Valid() && builder.Extends()
      ensures route == OtherRoute(old(builder.pos))
      ensures old(builder.pos) < |builder.tokens| ==> old(builder.pos) < builder.pos
      ensures route == NgForStatement ==>
        && builder.pos == ForStatementEnd(old(builder.pos))
        && builder.nodes == old(builder.nodes) + ForStatementNodes(old(builder.pos))
        && builder.diags == old(builder.diags) + ForStatementDiags(old(builder.pos))
      ensures route == LetExpressionStatement ==>
        && builder.pos == base.ExpressionStatementEnd(old(builder.pos))
        && builder.nodes == old(builder.nodes) + base.ExpressionStatementNodes(old(builder.pos))
        && builder.diags == old(builder.diags)
      ensures route == ParenthesizedInStatement ==>
        && builder.pos == exprs.InEnd(old(builder.pos))
        && builder.nodes == old(builder.nodes) + InStatementNodes(old(builder.pos))
        && builder.diags == old(builder.diags) + exprs.InDiags(old(builder.pos))
      ensures route == BaselineStatement ==>
        && builder.pos == base.StatementEnd(old(builder.pos))
        && builder.nodes == old(builder.nodes) + base.StatementNodes(old(builder.pos))
        && builder.diags == old(builder.diags) + base.StatementDiags(old(builder.pos))
    {
      if firstToken == LetKeyword {
        route := ParseLetStatement();
      } else {
        route := ParseParenthesizedOrBaseline();
      }
    }

    /** `(k, v) in coll` when `(` starts the statement and the repeat
        expression finds its `in`; the baseline statement otherwise. */
    method ParseParenthesizedOrBaseline() returns (route: Route)
      requires Wired() && builder.Valid()
      requires builder.TokenType() != LetKeyword
      modifies builder
      ensures builder.Valid() && builder.Extends()
      ensures route == OtherRoute(old(builder.pos))
      ensures old(builder.pos) < |builder.tokens| ==> old(builder.pos) < builder.pos
      ensures route == ParenthesizedInStatement ==>
        && builder.pos == exprs.InEnd(old(builder.pos))
        && builder.nodes == old(builder.nodes) + InStatementNodes(old(builder.pos))
        && builder.diags == old(builder.diags) + exprs.InDiags(old(builder.pos))
      ensures route == BaselineStatement ==>
        && builder.pos == base.StatementEnd(old(builder.pos))
        && builder.nodes == old(builder.nodes) + base.StatementNodes(old(builder.pos))
        && builder.diags == old(builder.diags) + base.StatementDiags(old(builder.pos))
    {
      var parsed := false;
      if builder.TokenType() == LPar {
        parsed := ParseInStatement();
      }
      if parsed {
        route := ParenthesizedInStatement;
      } else {
        base.DoParseStatement();
        route := BaselineStatement;
      }
    }
  }
}
