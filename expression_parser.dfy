/** The Angular expression grammar: the overrides of the baseline unary and
    primary expressions, filters (pipes), merged string literals, `let`
    hash definitions, `let x of coll` and the `x in coll` / `(k, v) in coll`
    repeat forms. */
module ExpressionParser {
  import opened Tokens
  import opened PsiBuilders
  import opened Baseline

  /** `let x`: where a hash definition that starts at `p` ends, what it
      builds and what it reports. The name must be exactly an identifier. */
  function HashEnd(t: seq<Token>, p: nat): (r: nat)
    requires Settled(t, p)
    ensures Settled(t, r) && p <= r && (p < |t| ==> p < r)
  {
    var q := Next(t, p);
    Accept(t, q, KindAt(t, q) == Identifier)
  }

  function HashNodes(t: seq<Token>, p: nat): seq<Node>
    requires Settled(t, p)
  {
    var q := Next(t, p);
    (if KindAt(t, q) == Identifier then [Node(Variable, q, Next(t, q))] else [])
    + [Node(VarStatement, p, HashEnd(t, p))]
  }

  function HashDiags(t: seq<Token>, p: nat): seq<Diag>
    requires Settled(t, p)
  {
    var q := Next(t, p);
    if KindAt(t, q) == Identifier then [] else [Diag(q, ExpectedIdentifier)]
  }

  /** A hash definition always steps past `let`, closes exactly one VAR_STATEMENT
      over its whole span, and reports one diagnostic exactly when the token
      after `let` is not an identifier. */
  lemma HashDefinitionShape(t: seq<Token>, p: nat)
    requires Settled(t, p) && p < |t|
    ensures p < HashEnd(t, p)
    ensures HashNodes(t, p)[|HashNodes(t, p)| - 1] == Node(VarStatement, p, HashEnd(t, p))
    ensures forall i :: 0 <= i < |HashNodes(t, p)| - 1 ==> HashNodes(t, p)[i].kind == Variable
    ensures |HashDiags(t, p)| == (if KindAt(t, Next(t, p)) == Identifier then 0 else 1)
  {
  }

  /** A hash definition builds nothing but VARIABLE and VAR_STATEMENT nodes. */
  lemma HashNodesHoldNo(t: seq<Token>, p: nat, kind: NodeKind)
    requires Settled(t, p) && kind != Variable && kind != VarStatement
    ensures CountKind(HashNodes(t, p), kind) == 0
  {
    var h := HashNodes(t, p);
    if KindAt(t, Next(t, p)) == Identifier {
      assert h[1..][1..] == [];
    } else {
      assert h[1..] == [];
    }
  }

  /** A slot of `(k, v)`: an identifier token becomes a VARIABLE and is
      consumed; anything else is reported and left in place. */
  function SlotEnd(t: seq<Token>, p: nat): (r: nat)
    requires Settled(t, p)
    ensures Settled(t, r) && p <= r
  {
    Accept(t, p, IsIdentifierToken(KindAt(t, p)))
  }

  function SlotNodes(t: seq<Token>, p: nat): seq<Node>
    requires Settled(t, p)
  {
    if IsIdentifierToken(KindAt(t, p)) then [Node(Variable, p, Next(t, p))] else []
  }

  function SlotDiags(t: seq<Token>, p: nat): seq<Diag>
    requires Settled(t, p)
  {
    if IsIdentifierToken(KindAt(t, p)) then [] else [Diag(p, ExpectedIdentifier)]
  }

  /** A required punctuation token: reported when it is not there. */
  function ExpectDiags(t: seq<Token>, p: nat, kind: Kind, message: string): seq<Diag>
    requires Settled(t, p)
  {
    if KindAt(t, p) == kind then [] else [Diag(p, message)]
  }

  /** The positions `(k, v)` passes through: after the opening token, after
      the key, after the comma, after the value and after the closing paren. */
  datatype KeyValueScan = KeyValueScan(open: nat, key: nat, comma: nat, value: nat, end: nat)

  function ScanKeyValue(t: seq<Token>, p: nat): (s: KeyValueScan)
    requires Settled(t, p)
    ensures Settled(t, s.open) && Settled(t, s.key) && Settled(t, s.comma)
    ensures Settled(t, s.value) && Settled(t, s.end)
    ensures p <= s.open <= s.key <= s.comma <= s.value <= s.end
    ensures p < |t| ==> p < s.end
  {
    var p1 := Next(t, p);
    var p2 := SlotEnd(t, p1);
    var p3 := Accept(t, p2, KindAt(t, p2) == Comma);
    var p4 := SlotEnd(t, p3);
    KeyValueScan(p1, p2, p3, p4, Accept(t, p4, KindAt(t, p4) == RPar))
  }

  function KeyValueNodes(t: seq<Token>, p: nat): seq<Node>
    requires Settled(t, p)
  {
    var s := ScanKeyValue(t, p);
    SlotNodes(t, s.open) + SlotNodes(t, s.comma) + [Node(VarStatement, s.open, s.value)]
  }

  function KeyValueDiags(t: seq<Token>, p: nat): seq<Diag>
    requires Settled(t, p)
  {
    var s := ScanKeyValue(t, p);
    SlotDiags(t, s.open) + ExpectDiags(t, s.key, Comma, ExpectedComma)
    + SlotDiags(t, s.comma) + ExpectDiags(t, s.value, RPar, ExpectedRParen)
  }

  /** The binding an in-expression starts with: one identifier token, or a
      `(k, v)` pair that counts only when `in` follows it. */
  predicate BindingFound(t: seq<Token>, p: nat)
    requires Settled(t, p)
  {
    IsIdentifierToken(KindAt(t, p)) || KindAt(t, ScanKeyValue(t, p).end) == InKeyword
  }

  function BindingEnd(t: seq<Token>, p: nat): (r: nat)
    requires Settled(t, p)
    ensures Settled(t, r) && p <= r
    ensures BindingFound(t, p) ==> p < Next(t, r)
  {
    if IsIdentifierToken(KindAt(t, p)) then Next(t, p) else ScanKeyValue(t, p).end
  }

  function BindingNodes(t: seq<Token>, p: nat): seq<Node>
    requires Settled(t, p)
  {
    if IsIdentifierToken(KindAt(t, p))
    then [Node(Variable, p, Next(t, p)), Node(VarStatement, p, Next(t, p))]
    else KeyValueNodes(t, p) + [Node(ParenthesizedExpression, p, ScanKeyValue(t, p).end)]
  }

  function BindingDiags(t: seq<Token>, p: nat): seq<Diag>
    requires Settled(t, p)
  {
    if IsIdentifierToken(KindAt(t, p)) then [] else KeyValueDiags(t, p)
  }

  lemma Associative<T>(a: seq<T>, b: seq<T>, c: seq<T>, d: seq<T>, e: seq<T>)
    ensures a + b + c + d + e == a + (b + c + d + e)
  {
  }

  lemma Associative3<T>(a: seq<T>, b: seq<T>, c: seq<T>)
    ensures a + b + c == a + (b + c)
  {
  }

  lemma Associative4<T>(a: seq<T>, b: seq<T>, c: seq<T>, d: seq<T>)
    ensures a + b + c + d == a + (b + c + d)
  {
  }

  /** `?.` separates qualifiers as `.` does. */
  function IsReferenceQualifierSeparator(k: Kind): (r: bool)
    ensures r <==> k == Elvis || k == Dot
  {
    k == Elvis || BaseIsReferenceQualifierSeparator(k)
  }

  class Angular2ExpressionParser {
    const builder: PsiBuilder
    const base: BaselineParser
    const messages: MessageFormatParser

    /** The baseline and the message-format parser drive the same builder. */
    predicate Wired() {
      base.builder == builder && messages.builder == builder
    }

    constructor (base: BaselineParser, messages: MessageFormatParser)
      requires base.builder == messages.builder
      ensures Wired() && this.base == base && this.messages == messages
    {
      this.builder := base.builder;
      this.base := base;
      this.messages := messages;
    }

    /** Binary priority of the current token: the pipe is fixed at 10. */
    function GetCurrentBinarySignPriority(allowIn: bool, advance: bool): (r: int)
      reads builder
      ensures builder.TokenType() == Or ==> r == 10
      ensures builder.TokenType() != Or ==> r == base.binaryPriority(builder.TokenType(), allowIn, advance)
    {
      if builder.TokenType() == Or then 10 else base.binaryPriority(builder.TokenType(), allowIn, advance)
    }

    /** `let x`: consume `let`, wrap an identifier as a VARIABLE (or report
        that it is missing), and close a VAR_STATEMENT over both. */
    method ParseHashDefinition()
      requires Wired() && builder.Valid()
      modifies builder
      ensures builder.Valid()
      ensures var t, p0 := builder.tokens, old(builder.pos);
        && builder.pos == HashEnd(t, p0)
        && builder.nodes == old(builder.nodes) + HashNodes(t, p0)
        && builder.diags == old(builder.diags) + HashDiags(t, p0)
      ensures builder.markers == old(builder.markers)
    {
      var def := builder.Mark();
      builder.AdvanceLexer();
      if builder.TokenType() != Identifier {
        builder.Error(ExpectedIdentifier);
      } else {
        builder.BuildTokenElement(Variable);
      }
      builder.Done(def, VarStatement);
    }

    /** `of` follows the hash definition starting at `p`. */
    predicate ForFollows(p: nat)
      requires Settled(builder.tokens, p)
    {
      KindAt(builder.tokens, HashEnd(builder.tokens, p)) == OfKeyword
    }

    /** Where `let x of coll` ends: after the collection when `of` follows
        the hash definition, after the hash definition otherwise. */
    function ForEnd(p: nat): (r: nat)
      requires Wired() && Settled(builder.tokens, p)
      ensures Settled(builder.tokens, r) && HashEnd(builder.tokens, p) <= r
    {
      var h := HashEnd(builder.tokens, p);
      if ForFollows(p) then base.ExpressionEnd(Next(builder.tokens, h)) else h
    }

    /** What `let x of coll` builds: the hash definition, then, when `of`
        follows it, the collection and a FOR_EXPRESSION over the whole. */
    function ForNodes(p: nat): seq<Node>
      requires Wired() && Settled(builder.tokens, p)
    {
      var t := builder.tokens;
      if ForFollows(p)
      then HashNodes(t, p) + base.ExpressionNodes(Next(t, HashEnd(t, p))) + [Node(ForExpression, p, ForEnd(p))]
      else HashNodes(t, p)
    }

    function ForDiags(p: nat): seq<Diag>
      requires Wired() && Settled(builder.tokens, p)
    {
      var t := builder.tokens;
      if ForFollows(p)
      then HashDiags(t, p) + base.ExpressionDiags(Next(t, HashEnd(t, p)))
      else HashDiags(t, p)
    }

    /** `let x of coll` starts with its hash definition, and its last node is
        a FOR_EXPRESSION over the whole exactly when `of` follows. */
    lemma ForExpressionShape(p: nat)
      requires Wired() && Settled(builder.tokens, p)
      ensures HashNodes(builder.tokens, p) <= ForNodes(p)
      ensures ForFollows(p) <==> ForNodes(p)[|ForNodes(p)| - 1] == Node(ForExpression, p, ForEnd(p))
    {
    }

    /** `let x of coll`. Always succeeds; without `of` the bare hash
        definition stays and no FOR_EXPRESSION is built. */
    method ParseForExpression() returns (ok: bool)
      requires Wired() && builder.Valid()
      modifies builder
      ensures builder.Valid() && builder.Extends() && ok
      ensures builder.pos == ForEnd(old(builder.pos))
      ensures builder.nodes == old(builder.nodes) + ForNodes(old(builder.pos))
      ensures builder.diags == old(builder.diags) + ForDiags(old(builder.pos))
    {
      ghost var t, p0, n0, d0 := builder.tokens, builder.pos, builder.nodes, builder.diags;
      var expr := builder.Mark();
      ParseHashDefinition();
      if builder.TokenType() != OfKeyword {
        builder.Drop(expr);
      } else {
        builder.AdvanceLexer();
        base.ParseExpression();
        builder.Done(expr, ForExpression);
        Associative4(n0, HashNodes(t, p0), base.ExpressionNodes(Next(t, HashEnd(t, p0))), [Node(ForExpression, p0, ForEnd(p0))]);
        assert builder.diags == d0 + ForDiags(p0);
      }
      ok := true;
    }

    /** `(k, v)` after whatever opening token: each missing part is reported
        and skipped, nothing is rolled back. */
    method ParseKeyValue()
      requires Wired() && builder.Valid()
      modifies builder
      ensures builder.Valid()
      ensures var t, p0 := builder.tokens, old(builder.pos);
        && builder.pos == ScanKeyValue(t, p0).end
        && builder.nodes == old(builder.nodes) + KeyValueNodes(t, p0)
        && builder.diags == old(builder.diags) + KeyValueDiags(t, p0)
      ensures builder.markers == old(builder.markers)
    {
      ghost var t, p0 := builder.tokens, builder.pos;
      ghost var s := ScanKeyValue(t, p0);
      ghost var n0, d0 := builder.nodes, builder.diags;
      builder.AdvanceLexer();
      var comma := builder.Mark();
      ParseSlot();
      ExpectToken(Comma, ExpectedComma);
      ParseSlot();
      ghost var d3 := builder.diags;
      builder.Done(comma, VarStatement);
      ExpectToken(RPar, ExpectedRParen);
      ghost var y1, y2 := SlotNodes(t, s.open), SlotNodes(t, s.comma);
      Associative4(n0, y1, y2, [Node(VarStatement, s.open, s.value)]);
      ghost var x1, x2 := SlotDiags(t, s.open), ExpectDiags(t, s.key, Comma, ExpectedComma);
      ghost var x3, x4 := SlotDiags(t, s.comma), ExpectDiags(t, s.value, RPar, ExpectedRParen);
      assert d3 == d0 + x1 + x2 + x3;
      Associative(d0, x1, x2, x3, x4);
    }

    /** One slot of `(k, v)`: an identifier token as a VARIABLE, or an
        "expected identifier" report. */
    method ParseSlot()
      requires Wired() && builder.Valid()
      modifies builder
      ensures builder.Valid()
      ensures var t, p0 := builder.tokens, old(builder.pos);
        && builder.pos == SlotEnd(t, p0)
        && builder.nodes == old(builder.nodes) + SlotNodes(t, p0)
        && builder.diags == old(builder.diags) + SlotDiags(t, p0)
      ensures builder.markers == old(builder.markers)
    {
      if IsIdentifierToken(builder.TokenType()) {
        builder.BuildTokenElement(Variable);
      } else {
        builder.Error(ExpectedIdentifier);
      }
    }

    /** Consume a `kind` token, or report `message` and stay. */
    method ExpectToken(kind: Kind, message: string)
      requires Wired() && builder.Valid()
      modifies builder
      ensures builder.Valid()
      ensures var t, p0 := builder.tokens, old(builder.pos);
        && builder.pos == Accept(t, p0, KindAt(t, p0) == kind)
        && builder.diags == old(builder.diags) + ExpectDiags(t, p0, kind, message)
      ensures builder.nodes == old(builder.nodes) && builder.markers == old(builder.markers)
    {
      if builder.TokenType() == kind {
        builder.AdvanceLexer();
      } else {
        builder.Error(message);
      }
    }

    /** Where `x in coll` starting at `p` ends: after the binding, the `in`
        and the collection. */
    function InEnd(p: nat): (r: nat)
      requires Wired() && Settled(builder.tokens, p)
      ensures Settled(builder.tokens, r)
      ensures BindingFound(builder.tokens, p) ==> p < r
    {
      base.ExpressionEnd(Next(builder.tokens, BindingEnd(builder.tokens, p)))
    }

    /** What a repeat expression builds: the binding, the collection, and a
        REPEAT_EXPRESSION over the whole. */
    function InNodes(p: nat): seq<Node>
      requires Wired() && Settled(builder.tokens, p)
    {
      var t := builder.tokens;
      BindingNodes(t, p) + base.ExpressionNodes(Next(t, BindingEnd(t, p))) + [Node(RepeatExpression, p, InEnd(p))]
    }

    function InDiags(p: nat): seq<Diag>
      requires Wired() && Settled(builder.tokens, p)
    {
      var t := builder.tokens;
      BindingDiags(t, p) + base.ExpressionDiags(Next(t, BindingEnd(t, p)))
    }

    /** A repeat expression consumes at least its binding, starts with the
        binding's nodes and ends with one REPEAT_EXPRESSION over its span. */
    lemma InExpressionShape(p: nat)
      requires Wired() && Settled(builder.tokens, p) && BindingFound(builder.tokens, p)
      ensures p < InEnd(p)
      ensures BindingNodes(builder.tokens, p) < InNodes(p)
      ensures InNodes(p)[|InNodes(p)| - 1] == Node(RepeatExpression, p, InEnd(p))
    {
      var t := builder.tokens;
      var q := Next(t, BindingEnd(t, p));
      assert InNodes(p) == BindingNodes(t, p) + (base.ExpressionNodes(q) + [Node(RepeatExpression, p, InEnd(p))]);
    }

    /** `x in coll` or `(k, v) in coll`. Fails, leaving no trace, only when
        the first token is not an identifier and no `in` follows the
        key-value prefix. */
    method ParseInExpression() returns (ok: bool)
      requires Wired() && builder.Valid()
      modifies builder
      ensures builder.Valid() && builder.Extends()
      ensures ok == BindingFound(builder.tokens, old(builder.pos))
      ensures !ok ==> builder.Untouched()
      ensures ok ==> builder.pos == InEnd(old(builder.pos)) && old(builder.pos) < builder.pos
      ensures ok ==> builder.nodes == old(builder.nodes) + InNodes(old(builder.pos))
      ensures ok ==> builder.diags == old(builder.diags) + InDiags(old(builder.pos))
    {
      ghost var t, p0, n0, d0, m0 := builder.tokens, builder.pos, builder.nodes, builder.diags, builder.markers;
      var expr := builder.Mark();
      ok := ParseBinding();
      if ok {
        assert builder.markers == m0 + [Marker(p0, |n0|, |d0|)];
        ghost var q := Next(t, BindingEnd(t, p0));
        ParseRepeatTail(expr, p0);
        Associative4(n0, BindingNodes(t, p0), base.ExpressionNodes(q), [Node(RepeatExpression, p0, InEnd(p0))]);
      } else {
        builder.RollbackTo(expr);
      }
    }

    /** The binding, up to the `in`: on success it is closed; otherwise the
        key-value marker is left open for the caller to roll back. */
    method ParseBinding() returns (found: bool)
      requires Wired() && builder.Valid()
      modifies builder
      ensures builder.Valid()
      ensures found == BindingFound(builder.tokens, old(builder.pos))
      ensures builder.pos == BindingEnd(builder.tokens, old(builder.pos))
      ensures found ==> builder.nodes == old(builder.nodes) + BindingNodes(builder.tokens, old(builder.pos))
      ensures found ==> builder.diags == old(builder.diags) + BindingDiags(builder.tokens, old(builder.pos))
      ensures found ==> builder.markers == old(builder.markers)
      ensures !found ==> builder.nodes == old(builder.nodes) + KeyValueNodes(builder.tokens, old(builder.pos))
      ensures !found ==> builder.diags == old(builder.diags) + KeyValueDiags(builder.tokens, old(builder.pos))
      ensures !found ==> builder.markers == old(builder.markers) + [old(builder.Here())]
    {
      if IsIdentifierToken(builder.TokenType()) {
        ParseSimpleBinding();
        found := true;
      } else {
        found := ParseKeyValueBinding();
      }
    }

    /** The simple form `x in coll`: the identifier as a VARIABLE inside a
        VAR_STATEMENT. */
    method ParseSimpleBinding()
      requires Wired() && builder.Valid() && IsIdentifierToken(builder.TokenType())
      modifies builder
      ensures builder.Valid()
      ensures BindingFound(builder.tokens, old(builder.pos))
      ensures builder.pos == BindingEnd(builder.tokens, old(builder.pos))
      ensures builder.nodes == old(builder.nodes) + BindingNodes(builder.tokens, old(builder.pos))
      ensures builder.diags == old(builder.diags) + BindingDiags(builder.tokens, old(builder.pos))
      ensures builder.markers == old(builder.markers)
    {
      var statement := builder.Mark();
      builder.BuildTokenElement(Variable);
      builder.Done(statement, VarStatement);
    }

    /** `(k, v)` under its own marker, closed as a PARENTHESIZED_EXPRESSION
        when `in` follows it; otherwise the marker is left open. */
    method ParseKeyValueBinding() returns (found: bool)
      requires Wired() && builder.Valid() && !IsIdentifierToken(builder.TokenType())
      modifies builder
      ensures builder.Valid()
      ensures found == BindingFound(builder.tokens, old(builder.pos))
      ensures builder.pos == BindingEnd(builder.tokens, old(builder.pos))
      ensures found ==> builder.nodes == old(builder.nodes) + BindingNodes(builder.tokens, old(builder.pos))
      ensures found ==> builder.diags == old(builder.diags) + BindingDiags(builder.tokens, old(builder.pos))
      ensures found ==> builder.markers == old(builder.markers)
      ensures !found ==> builder.nodes == old(builder.nodes) + KeyValueNodes(builder.tokens, old(builder.pos))
      ensures !found ==> builder.diags == old(builder.diags) + KeyValueDiags(builder.tokens, old(builder.pos))
      ensures !found ==> builder.markers == old(builder.markers) + [old(builder.Here())]
    {
      ghost var t, p0 := builder.tokens, builder.pos;
      assert BindingEnd(t, p0) == ScanKeyValue(t, p0).end;
      assert BindingNodes(t, p0) == KeyValueNodes(t, p0) + [Node(ParenthesizedExpression, p0, BindingEnd(t, p0))];
      assert BindingDiags(t, p0) == KeyValueDiags(t, p0);
      var keyValue := builder.Mark();
      ParseKeyValue();
      found := builder.TokenType() == InKeyword;
      if found {
        builder.Done(keyValue, ParenthesizedExpression);
      }
    }

    /** The `in` token (whatever it is) and the collection expression, closed
        with the innermost marker `expr` as a REPEAT_EXPRESSION. */
    method ParseRepeatTail(expr: nat, ghost start: nat)
      requires Wired() && builder.Valid() && expr + 1 == |builder.markers|
      requires builder.markers[expr].pos == start
      modifies builder
      ensures builder.Valid()
      ensures builder.pos == base.ExpressionEnd(Next(builder.tokens, old(builder.pos)))
      ensures builder.nodes == old(builder.nodes) + base.ExpressionNodes(Next(builder.tokens, old(builder.pos)))
                               + [Node(RepeatExpression, start, builder.pos)]
      ensures builder.diags == old(builder.diags) + base.ExpressionDiags(Next(builder.tokens, old(builder.pos)))
      ensures builder.markers == old(builder.markers[..expr])
    {
      builder.AdvanceLexer();
      base.ParseExpression();
      builder.Done(expr, RepeatExpression);
    }

    /** Where the argument list of a filter ends when it starts at `p`: each
        `:` is followed by one baseline unary expression. */
    function ArgumentsEnd(p: nat): (r: nat)
      requires Wired() && Settled(builder.tokens, p)
      ensures Settled(builder.tokens, r) && p <= r
      ensures KindAt(builder.tokens, r) != Colon
      ensures KindAt(builder.tokens, p) == Colon ==> p < r
      decreases |builder.tokens| - p
    {
      if KindAt(builder.tokens, p) == Colon
      then ArgumentsEnd(base.UnaryEnd(Next(builder.tokens, p)))
      else p
    }

    /** What the arguments of a filter starting at `p` build and report:
        for each `:`, the argument's node, or an "expected expression" report
        where the argument should have been. */
    function ArgumentsNodes(p: nat): seq<Node>
      requires Wired() && Settled(builder.tokens, p)
      decreases |builder.tokens| - p
    {
      if KindAt(builder.tokens, p) == Colon then
        var q := Next(builder.tokens, p);
        base.UnaryNodes(q) + ArgumentsNodes(base.UnaryEnd(q))
      else []
    }

    function ArgumentsDiags(p: nat): seq<Diag>
      requires Wired() && Settled(builder.tokens, p)
      decreases |builder.tokens| - p
    {
      if KindAt(builder.tokens, p) == Colon then
        var q := Next(builder.tokens, p);
        ArgumentDiags(q) + ArgumentsDiags(base.UnaryEnd(q))
      else []
    }

    /** The report for one argument starting at `q`: made where the argument
        should have been, exactly when the unary expression consumed nothing. */
    function ArgumentDiags(q: nat): seq<Diag>
      requires Wired() && Settled(builder.tokens, q)
    {
      if q < base.UnaryEnd(q) then [] else [Diag(base.UnaryEnd(q), ExpectedExpression)]
    }

    /** Every report of a filter's argument list says "expected expression"
        and lies after the list's first `:`, within the list. */
    lemma {:induction false} ArgumentsDiagsReport(p: nat)
      requires Wired() && Settled(builder.tokens, p)
      ensures forall i :: 0 <= i < |ArgumentsDiags(p)| ==>
        && ArgumentsDiags(p)[i].message == ExpectedExpression
        && p < ArgumentsDiags(p)[i].pos <= ArgumentsEnd(p)
      decreases |builder.tokens| - p
    {
      var t := builder.tokens;
      if KindAt(t, p) == Colon {
        var q := Next(t, p);
        var e := base.UnaryEnd(q);
        assert p < q <= e;
        ArgumentsDiagsReport(e);
        assert ArgumentsEnd(p) == ArgumentsEnd(e);
        forall i | 0 <= i < |ArgumentsDiags(p)|
          ensures ArgumentsDiags(p)[i].message == ExpectedExpression
          ensures p < ArgumentsDiags(p)[i].pos <= ArgumentsEnd(p)
        {
          if i >= |ArgumentDiags(q)| {
            assert ArgumentsDiags(p)[i] == ArgumentsDiags(e)[i - |ArgumentDiags(q)|];
          }
        }
      }
    }

    /** How many `:`-introduced arguments the argument loop starting at `p`
        reads. */
    function ArgumentCount(p: nat): (r: nat)
      requires Wired() && Settled(builder.tokens, p)
      ensures (r > 0) == (KindAt(builder.tokens, p) == Colon)
      decreases |builder.tokens| - p
    {
      if KindAt(builder.tokens, p) == Colon
      then 1 + ArgumentCount(base.UnaryEnd(Next(builder.tokens, p)))
      else 0
    }

    /** Each argument of the loop yields exactly one of a node (its unary
        expression consumed something) and a report (it consumed nothing);
        every node is a baseline node lying after the first `:`, within the
        list. */
    lemma {:induction false} ArgumentsNodesCount(p: nat)
      requires Wired() && Settled(builder.tokens, p)
      ensures |ArgumentsNodes(p)| + |ArgumentsDiags(p)| == ArgumentCount(p)
      ensures forall i :: 0 <= i < |ArgumentsNodes(p)| ==>
        && ArgumentsNodes(p)[i].kind == BaselineNode
        && p < ArgumentsNodes(p)[i].start < ArgumentsNodes(p)[i].end <= ArgumentsEnd(p)
      decreases |builder.tokens| - p
    {
      var t := builder.tokens;
      if KindAt(t, p) == Colon {
        var q := Next(t, p);
        var e := base.UnaryEnd(q);
        assert p < q <= e;
        ArgumentsNodesCount(e);
        assert ArgumentsEnd(p) == ArgumentsEnd(e);
        assert |base.UnaryNodes(q)| + |ArgumentDiags(q)| == 1;
        forall i | 0 <= i < |ArgumentsNodes(p)|
          ensures ArgumentsNodes(p)[i].kind == BaselineNode
          ensures p < ArgumentsNodes(p)[i].start < ArgumentsNodes(p)[i].end <= ArgumentsEnd(p)
        {
          if i >= |base.UnaryNodes(q)| {
            assert ArgumentsNodes(p)[i] == ArgumentsNodes(e)[i - |base.UnaryNodes(q)|];
          }
        }
      }
    }

    /** What a filter starting at `p0` builds: the name as a
        REFERENCE_EXPRESSION, the arguments and, when a `:` follows the name,
        an ARGUMENT_LIST over them, then the FILTER_EXPRESSION over the whole. */
    function FilterNodes(p0: nat): seq<Node>
      requires Wired() && Settled(builder.tokens, p0)
    {
      var t := builder.tokens;
      var p1 := Next(t, p0);
      var e := ArgumentsEnd(p1);
      if KindAt(t, p1) == Colon
      then [Node(ReferenceExpression, p0, p1)] + ArgumentsNodes(p1) + [Node(ArgumentList, p1, e)] + [Node(FilterExpression, p0, e)]
      else [Node(ReferenceExpression, p0, p1), Node(FilterExpression, p0, e)]
    }

    /** A filter starts with its name and ends with one FILTER_EXPRESSION over
        its whole span, right after the ARGUMENT_LIST when a `:` follows the
        name; without one, the name and the filter are all it builds. */
    lemma FilterExpressionShape(p0: nat)
      requires Wired() && Settled(builder.tokens, p0)
      ensures var t, p1 := builder.tokens, Next(builder.tokens, p0); var f := FilterNodes(p0);
        && 2 <= |f|
        && f[0] == Node(ReferenceExpression, p0, p1)
        && f[|f| - 1] == Node(FilterExpression, p0, ArgumentsEnd(p1))
        && (KindAt(t, p1) == Colon ==> f[|f| - 2] == Node(ArgumentList, p1, ArgumentsEnd(p1)))
        && (KindAt(t, p1) != Colon ==> f == [Node(ReferenceExpression, p0, p1), Node(FilterExpression, p0, p1)])
    {
    }

    /** `name:arg:arg` after a pipe. Always succeeds: the current token,
        whatever it is, becomes the filter name; an ARGUMENT_LIST is closed
        exactly when a `:` follows the name, and each `:` takes one baseline
        unary expression. */
    method ParseFilter() returns (ok: bool)
      requires Wired() && builder.Valid()
      modifies builder
      ensures builder.Valid() && builder.Extends() && ok
      ensures builder.pos == ArgumentsEnd(Next(builder.tokens, old(builder.pos)))
      ensures builder.nodes == old(builder.nodes) + FilterNodes(old(builder.pos))
      ensures builder.diags == old(builder.diags) + ArgumentsDiags(Next(builder.tokens, old(builder.pos)))
    {
      ghost var t, p0, n0 := builder.tokens, builder.pos, builder.nodes;
      var mark := builder.Mark();
      builder.BuildTokenElement(ReferenceExpression);
      ghost var p1 := builder.pos;
      assert p1 == Next(t, p0);
      ParseFilterArguments();
      builder.Done(mark, FilterExpression);
      ghost var e := builder.pos;
      if KindAt(t, p1) == Colon {
        Associative(n0, [Node(ReferenceExpression, p0, p1)], ArgumentsNodes(p1), [Node(ArgumentList, p1, e)], [Node(FilterExpression, p0, e)]);
      } else {
        assert builder.nodes == n0 + [Node(ReferenceExpression, p0, p1)] + [Node(FilterExpression, p0, e)];
      }
      ok := true;
    }

    /** The `:arg` list after the filter name: the ARGUMENT_LIST marker is
        opened at the first `:` and closed after the last argument. */
    method ParseFilterArguments()
      requires Wired() && builder.Valid()
      modifies builder
      ensures builder.Valid()
      ensures builder.pos == ArgumentsEnd(old(builder.pos))
      ensures builder.diags == old(builder.diags) + ArgumentsDiags(old(builder.pos))
      ensures KindAt(builder.tokens, old(builder.pos)) == Colon ==>
        builder.nodes == old(builder.nodes) + ArgumentsNodes(old(builder.pos)) + [Node(ArgumentList, old(builder.pos), builder.pos)]
      ensures KindAt(builder.tokens, old(builder.pos)) != Colon ==> builder.nodes == old(builder.nodes)
      ensures builder.markers == old(builder.markers)
    {
      ghost var t, p1, n1, d1, m1 := builder.tokens, builder.pos, builder.nodes, builder.diags, builder.markers;
      var arguments: int := -1;
      while builder.TokenType() == Colon
        invariant builder.Valid() && p1 <= builder.pos
        invariant ArgumentsEnd(builder.pos) == ArgumentsEnd(p1)
        invariant n1 <= builder.nodes && d1 <= builder.diags
        invariant builder.nodes + ArgumentsNodes(builder.pos) == n1 + ArgumentsNodes(p1)
        invariant builder.diags + ArgumentsDiags(builder.pos) == d1 + ArgumentsDiags(p1)
        invariant arguments < 0 ==> builder.pos == p1 && builder.nodes == n1 && builder.diags == d1
        invariant arguments < 0 ==> builder.markers == m1
        invariant arguments >= 0 ==> arguments == |m1| && KindAt(t, p1) == Colon
        invariant arguments >= 0 ==> builder.markers == m1 + [Marker(p1, |n1|, |d1|)]
        decreases |t| - builder.pos
      {
        if arguments < 0 {
          arguments := builder.Mark();
        }
        ghost var p, n, d := builder.pos, builder.nodes, builder.diags;
        ghost var q := Next(t, p);
        ParseFilterArgument();
        assert n + ArgumentsNodes(p) == builder.nodes + ArgumentsNodes(builder.pos) by {
          assert ArgumentsNodes(p) == base.UnaryNodes(q) + ArgumentsNodes(builder.pos);
          Associative3(n, base.UnaryNodes(q), ArgumentsNodes(builder.pos));
        }
        assert d + ArgumentsDiags(p) == builder.diags + ArgumentsDiags(builder.pos) by {
          assert ArgumentsDiags(p) == ArgumentDiags(q) + ArgumentsDiags(builder.pos);
          Associative3(d, ArgumentDiags(q), ArgumentsDiags(builder.pos));
        }
      }
      assert ArgumentsNodes(builder.pos) == [] && ArgumentsDiags(builder.pos) == [];
      assert builder.nodes == n1 + ArgumentsNodes(p1) && builder.diags == d1 + ArgumentsDiags(p1);
      if arguments >= 0 {
        builder.Done(arguments, ArgumentList);
      }
    }

    /** One `:arg` of a filter: the colon and a baseline unary expression,
        reported when it is missing. */
    method ParseFilterArgument()
      requires Wired() && builder.Valid()
      modifies builder
      ensures builder.Valid() && builder.Extends()
      ensures builder.pos == base.UnaryEnd(Next(builder.tokens, old(builder.pos)))
      ensures builder.nodes == old(builder.nodes) + base.UnaryNodes(Next(builder.tokens, old(builder.pos)))
      ensures builder.diags == old(builder.diags) + ArgumentDiags(Next(builder.tokens, old(builder.pos)))
    {
      builder.AdvanceLexer();
      var parsed := base.ParseUnaryExpression();
      if !parsed {
        builder.Error(ExpectedExpression);
      }
    }

    /** What validating the text of the literal run at `p0` reports, at the
        end of the run. */
    function LiteralDiags(p0: nat): seq<Diag>
      requires Wired() && Settled(builder.tokens, p0)
    {
      match base.validateLiteral(RunText(builder.tokens, p0))
      case None => []
      case Some(message) => [Diag(RunEnd(builder.tokens, p0), message)]
    }

    /** Merge the run of string-literal and escape tokens at the cursor into
        one LITERAL_EXPRESSION, then report what validating its text finds. */
    method ParseStringLiteral(firstToken: Kind) returns (ok: bool)
      requires Wired() && builder.Valid()
      requires firstToken == builder.TokenType()
      modifies builder
      ensures builder.Valid() && ok
      ensures var t, p0 := builder.tokens, old(builder.pos);
        && builder.pos == RunEnd(t, p0)
        && (IsLiteralPart(firstToken) ==> p0 < builder.pos)
        && builder.nodes == old(builder.nodes) + [Node(LiteralExpression, p0, builder.pos)]
        && builder.diags == old(builder.diags) + LiteralDiags(p0)
      ensures builder.markers == old(builder.markers)
    {
      var mark := builder.Mark();
      var literal := CollectLiteralText(firstToken);
      builder.Done(mark, LiteralExpression);
      var errorMessage := base.validateLiteral(literal);
      if errorMessage.Some? {
        builder.Error(errorMessage.value);
      }
      ok := true;
    }

    /** Step over the run of string-literal and escape tokens at the cursor,
        concatenating their texts. */
    method CollectLiteralText(firstToken: Kind) returns (literal: string)
      requires Wired() && builder.Valid()
      requires firstToken == builder.TokenType()
      modifies builder
      ensures builder.Valid()
      ensures builder.pos == RunEnd(builder.tokens, old(builder.pos))
      ensures literal == RunText(builder.tokens, old(builder.pos))
      ensures builder.nodes == old(builder.nodes) && builder.diags == old(builder.diags)
      ensures builder.markers == old(builder.markers)
    {
      ghost var t, p0 := builder.tokens, builder.pos;
      var currentToken := firstToken;
      literal := "";
      while IsLiteralPart(currentToken)
        invariant builder.Valid() && p0 <= builder.pos
        invariant currentToken == builder.TokenType()
        invariant RunEnd(t, builder.pos) == RunEnd(t, p0)
        invariant literal + RunText(t, builder.pos) == RunText(t, p0)
        invariant builder.nodes == old(builder.nodes) && builder.diags == old(builder.diags)
        invariant builder.markers == old(builder.markers)
        decreases |t| - builder.pos
      {
        var text := builder.TokenText();
        ghost var rest := RunText(t, Next(t, builder.pos));
        assert RunText(t, builder.pos) == text + rest;
        Associative3(literal, text, rest);
        literal := literal + text;
        builder.AdvanceLexer();
        currentToken := builder.TokenType();
      }
      assert RunText(t, builder.pos) == "";
    }

    /** `as x`: wrap the identifier as a reference inside a
        DEFINITION_EXPRESSION, or report that it is missing. */
    method ParseExplicitIdentifierWithError()
      requires Wired() && builder.Valid()
      modifies builder
      ensures builder.Valid()
      ensures var t, p0 := builder.tokens, old(builder.pos);
        if IsIdentifierToken(KindAt(t, p0)) then
          && builder.pos == Next(t, p0)
          && builder.nodes == old(builder.nodes) + [Node(ReferenceExpression, p0, builder.pos), Node(DefinitionExpression, p0, builder.pos)]
          && builder.diags == old(builder.diags)
        else
          && builder.pos == p0 && builder.nodes == old(builder.nodes)
          && builder.diags == old(builder.diags) + [Diag(p0, ExpectedIdentifier)]
      ensures builder.markers == old(builder.markers)
    {
      if IsIdentifierToken(builder.TokenType()) {
        var def := builder.Mark();
        builder.BuildTokenElement(ReferenceExpression);
        builder.Done(def, DefinitionExpression);
      } else {
        builder.Error(ExpectedIdentifier);
      }
    }

    /** The kind of the nearest significant token before the cursor, found
        by stepping back over raw whitespace and comment tokens. */
    method PrecedingTokenType() returns (prev: Kind)
      requires builder.Valid()
      ensures prev == PrecedingKind(builder.tokens, builder.pos)
    {
      var cur := -1;
      prev := builder.RawLookup(-1);
      while prev != NoToken && IsTrivia(prev)
        invariant -1 <= builder.pos as int + cur < builder.pos
        invariant prev == builder.RawLookup(cur)
        invariant PrecedingIndex(builder.tokens, builder.pos) == PrecedingIndex(builder.tokens, builder.pos + cur + 1)
        decreases builder.pos as int + cur
      {
        cur := cur - 1;
        prev := builder.RawLookup(cur);
      }
    }

    /** The primary-expression hook: a string-literal run, a hash definition,
        a message-format placeholder, an identifier right after `as`, or else
        the baseline primary expression. */
    method ParsePrimaryExpression() returns (ok: bool)
      requires Wired() && builder.Valid()
      modifies builder
      ensures builder.Valid() && builder.Extends()
      ensures var t, p0 := builder.tokens, old(builder.pos); var first := KindAt(t, p0);
        if first == StringLiteral then
          && ok && builder.pos == RunEnd(t, p0) && p0 < builder.pos
          && builder.nodes == old(builder.nodes) + [Node(LiteralExpression, p0, builder.pos)]
          && builder.diags == old(builder.diags) + LiteralDiags(p0)
        else if first == LetKeyword then
          && ok && builder.pos == HashEnd(t, p0)
          && builder.nodes == old(builder.nodes) + HashNodes(t, p0)
          && builder.diags == old(builder.diags) + HashDiags(t, p0)
        else if IsIdentifierToken(first) && messages.Recognizes(p0) then
          && ok && builder.pos == messages.MessageEnd(p0)
          && builder.nodes == old(builder.nodes) + [Node(MessageFormatNode, p0, builder.pos)]
          && builder.diags == old(builder.diags)
        else if IsIdentifierToken(first) && PrecedingKind(t, p0) == AsKeyword then
          && ok && builder.pos == Next(t, p0)
          && builder.nodes == old(builder.nodes) + [Node(ReferenceExpression, p0, builder.pos), Node(DefinitionExpression, p0, builder.pos)]
          && builder.diags == old(builder.diags)
        else
          && builder.pos == base.PrimaryEnd(p0)
          && ok == (p0 < builder.pos)
          && builder.nodes == old(builder.nodes) + base.PrimaryNodes(p0)
          && builder.diags == old(builder.diags)
    {
      var firstToken := builder.TokenType();
      if firstToken == StringLiteral {
        ok := ParseStringLiteral(firstToken);
      } else if firstToken == LetKeyword {
        ParseHashDefinition();
        ok := true;
      } else {
        ok := false;
        if IsIdentifierToken(firstToken) {
          ok := messages.ParseMessage();
          if !ok {
            var prev := PrecedingTokenType();
            if prev == AsKeyword {
              ParseExplicitIdentifierWithError();
              ok := true;
            }
          }
        }
        if !ok {
          ok := base.ParsePrimaryExpression();
        }
      }
    }

    /** The unary-expression hook: after a pipe comes a filter, otherwise the
        baseline unary expression. */
    method ParseUnaryExpression() returns (ok: bool)
      requires Wired() && builder.Valid()
      modifies builder
      ensures builder.Valid() && builder.Extends()
      ensures KindAt(builder.tokens, old(builder.pos)) == Or ==>
        && ok
        && builder.pos == ArgumentsEnd(Next(builder.tokens, Next(builder.tokens, old(builder.pos))))
        && builder.nodes == old(builder.nodes) + FilterNodes(Next(builder.tokens, old(builder.pos)))
        && builder.diags == old(builder.diags) + ArgumentsDiags(Next(builder.tokens, Next(builder.tokens, old(builder.pos))))
      ensures KindAt(builder.tokens, old(builder.pos)) != Or ==>
        && builder.pos == base.UnaryEnd(old(builder.pos)) && ok == (old(builder.pos) < builder.pos)
        && builder.nodes == old(builder.nodes) + base.UnaryNodes(old(builder.pos))
        && builder.diags == old(builder.diags)
    {
      var tokenType := builder.TokenType();
      if tokenType == Or {
        ok := ParsePipeFilter();
      } else {
        ok := base.ParseUnaryExpression();
      }
    }

    /** Step over the pipe, then parse the filter. parseFilter always
        succeeds, so the "expected filter" report that would follow a
        failure is never made. */
    method ParsePipeFilter() returns (ok: bool)
      requires Wired() && builder.Valid()
      modifies builder
      ensures builder.Valid() && builder.Extends() && ok
      ensures builder.pos == ArgumentsEnd(Next(builder.tokens, Next(builder.tokens, old(builder.pos))))
      ensures builder.nodes == old(builder.nodes) + FilterNodes(Next(builder.tokens, old(builder.pos)))
      ensures builder.diags == old(builder.diags) + ArgumentsDiags(Next(builder.tokens, Next(builder.tokens, old(builder.pos))))
    {
      builder.AdvanceLexer();
      ok := ParseFilter();
    }
  }
}
