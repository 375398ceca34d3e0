/** The tree builder the parser drives: a cursor over the token stream, the
    nodes committed so far, the diagnostics reported so far, and a stack of
    open markers (checkpoints). */
module PsiBuilders {
  import opened Tokens

  datatype NodeKind =
    | ReferenceExpression | LiteralExpression | FilterExpression | ArgumentList
    | ParenthesizedExpression | Variable | VarStatement | ExpressionStatement
    | ForExpression | RepeatExpression | IfStatement | DefinitionExpression
    | BaselineNode      // whatever the baseline grammar builds
    | MessageFormatNode // whatever the message-format parser builds
    | Root

  /** A committed node over the raw token positions [start, end). Nodes are
      committed bottom-up, so children come before their parent. */
  datatype Node = Node(kind: NodeKind, start: nat, end: nat)

  datatype Diag = Diag(pos: nat, message: string)

  /** What `mark` records: the cursor and how many nodes and diagnostics exist. */
  datatype Marker = Marker(pos: nat, nodeCount: nat, diagCount: nat)

  predicate Within(a: Marker, b: Marker) {
    a.pos <= b.pos && a.nodeCount <= b.nodeCount && a.diagCount <= b.diagCount
  }

  /** How many nodes of `kind` a sequence holds. */
  function CountKind(s: seq<Node>, kind: NodeKind): (r: nat)
    ensures r <= |s|
  {
    if s == [] then 0 else (if s[0].kind == kind then 1 else 0) + CountKind(s[1..], kind)
  }

  lemma {:induction false} CountKindAppend(a: seq<Node>, b: seq<Node>, kind: NodeKind)
    ensures CountKind(a + b, kind) == CountKind(a, kind) + CountKind(b, kind)
  {
    if a == [] {
      assert a + b == b;
    } else {
      assert (a + b)[1..] == a[1..] + b;
      CountKindAppend(a[1..], b, kind);
    }
  }

  /** A sequence with no node of `kind` counts none, and one that holds a
      node counts it. */
  lemma {:induction false} CountKindNone(s: seq<Node>, kind: NodeKind)
    ensures (forall i :: 0 <= i < |s| ==> s[i].kind != kind) <==> CountKind(s, kind) == 0
  {
    if s != [] {
      CountKindNone(s[1..], kind);
      assert forall i :: 1 <= i < |s| ==> s[i] == s[1..][i - 1];
    }
  }

  const ExpectedIdentifier := "expected identifier"
  const ExpectedComma := "expected comma"
  const ExpectedRParen := "expected right-paren"
  const ExpectedExpression := "expected expression"
  const ExpectedSemicolon := "expected semicolon"
  const ExpectedStatement := "expected statement"

  class PsiBuilder {
    const tokens: seq<Token>
    var pos: nat
    var nodes: seq<Node>
    var diags: seq<Diag>
    /** Open markers; a marker is named by its index in this stack. */
    var markers: seq<Marker>

    function Here(): Marker
      reads this
    {
      Marker(pos, |nodes|, |diags|)
    }

    /** Markers nest: each snapshot is no later than the ones opened after it,
        and all of them are no later than the present state. */
    ghost predicate Valid()
      reads this
    {
      && Settled(tokens, pos)
      && (forall i :: 0 <= i < |markers| ==> Within(markers[i], Here()) && Settled(tokens, markers[i].pos))
      && (forall i, j :: 0 <= i < j < |markers| ==> Within(markers[i], markers[j]))
    }

    /** What a parse call may do to state it does not own: move forward, add
        nodes and diagnostics, and leave the open markers as they were. */
    twostate predicate Extends()
      reads this
    {
      old(pos) <= pos && old(nodes) <= nodes && old(diags) <= diags && old(markers) == markers
    }

    /** Nothing observable changed: the state a rolled-back attempt leaves. */
    twostate predicate Untouched()
      reads this
    {
      old(pos) == pos && old(nodes) == nodes && old(diags) == diags && old(markers) == markers
    }

    constructor (tokens: seq<Token>)
      requires WellFormed(tokens)
      ensures Valid()
      ensures this.tokens == tokens && pos == SkipTrivia(tokens, 0)
      ensures nodes == [] && diags == [] && markers == []
    {
      this.tokens := tokens;
      pos := SkipTrivia(tokens, 0);
      nodes, diags, markers := [], [], [];
    }

    /** The current token's kind; `NoToken` at the end. */
    function TokenType(): Kind
      reads this
    {
      KindAt(tokens, pos)
    }

    function TokenText(): string
      reads this
      requires pos < |tokens|
    {
      tokens[pos].text
    }

    predicate Eof()
      reads this
    {
      pos == |tokens|
    }

    /** The kind of the `k`-th significant token after the current one. */
    function LookAhead(k: nat): Kind
      reads this
      requires Valid()
    {
      KindAt(tokens, Tokens.LookAhead(tokens, pos, k))
    }

    /** The kind of the raw token (trivia included) `steps` away from the cursor. */
    function RawLookup(steps: int): Kind
      reads this
    {
      var i := pos as int + steps;
      if 0 <= i < |tokens| then tokens[i].kind else NoToken
    }

    method AdvanceLexer()
      requires Valid()
      modifies this
      ensures Valid()
      ensures pos == Next(tokens, old(pos))
      ensures nodes == old(nodes) && diags == old(diags) && markers == old(markers)
    {
      pos := Next(tokens, pos);
    }

    method Mark() returns (m: nat)
      requires Valid()
      modifies this
      ensures Valid()
      ensures m == |old(markers)| && markers == old(markers) + [old(Here())]
      ensures pos == old(pos) && nodes == old(nodes) && diags == old(diags)
    {
      m := |markers|;
      markers := markers + [Here()];
    }

    /** Close the innermost marker with a node over everything consumed since it. */
    method Done(m: nat, kind: NodeKind)
      requires Valid() && m + 1 == |markers|
      modifies this
      ensures Valid()
      ensures nodes == old(nodes) + [Node(kind, old(markers[m].pos), pos)]
      ensures markers == old(markers[..m])
      ensures pos == old(pos) && diags == old(diags)
    {
      nodes := nodes + [Node(kind, markers[m].pos, pos)];
      markers := markers[..m];
    }

    /** Forget the innermost marker; what was built since it stays. */
    method Drop(m: nat)
      requires Valid() && m + 1 == |markers|
      modifies this
      ensures Valid()
      ensures markers == old(markers[..m])
      ensures pos == old(pos) && nodes == old(nodes) && diags == old(diags)
    {
      markers := markers[..m];
    }

    /** Return to marker `m` as if nothing had happened since it: the cursor,
        the nodes and the diagnostics are those it recorded, and `m` and every
        marker opened after it are gone. */
    method RollbackTo(m: nat)
      requires Valid() && m < |markers|
      modifies this
      ensures Valid()
      ensures Here() == old(markers[m])
      ensures nodes == old(nodes[..markers[m].nodeCount])
      ensures diags == old(diags[..markers[m].diagCount])
      ensures markers == old(markers[..m])
    {
      var s := markers[m];
      pos := s.pos;
      nodes := nodes[..s.nodeCount];
      diags := diags[..s.diagCount];
      markers := markers[..m];
    }

    /** Report `message` at the current token. */
    method Error(message: string)
      requires Valid()
      modifies this
      ensures Valid()
      ensures diags == old(diags) + [Diag(pos, message)]
      ensures pos == old(pos) && nodes == old(nodes) && markers == old(markers)
    {
      diags := diags + [Diag(pos, message)];
    }

    /** The baseline parser's `buildTokenElement`: wrap the current token,
        whatever it is, in a node of `kind`. */
    method BuildTokenElement(kind: NodeKind)
      requires Valid()
      modifies this
      ensures Valid()
      ensures pos == Next(tokens, old(pos))
      ensures nodes == old(nodes) + [Node(kind, old(pos), pos)]
      ensures diags == old(diags) && markers == old(markers)
    {
      var m := Mark();
      AdvanceLexer();
      Done(m, kind);
    }
  }
}
