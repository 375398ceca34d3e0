/** Token kinds and tokens of an Angular binding expression, and the position
    arithmetic of a cursor that skips whitespace and comments (trivia). */
module Tokens {

  datatype Option<+T> = None | Some(value: T)

  datatype Kind =
    | Identifier
    | StringLiteral | EscapeSequence | InvalidEscapeSequence
    | LetKeyword | InKeyword | OfKeyword | AsKeyword | ElseKeyword | Then
    | Or | Colon | Comma | Semicolon | LPar | RPar | LBrace | Eq | Dot | Elvis
    | Whitespace | Comment
    | Other     // any other token the baseline grammar handles (numbers, operators, ...)
    | NoToken   // the answer past either end of the stream, where the builder returns null

  /** A lexeme: its kind and its text. */
  datatype Token = Token(kind: Kind, text: string)

  predicate IsTrivia(k: Kind) {
    k == Whitespace || k == Comment
  }

  /** The baseline's identifier tokens: identifiers and the contextual keywords
      `of` and `as`, which may also name things. */
  predicate IsIdentifierToken(k: Kind) {
    k == Identifier || k == OfKeyword || k == AsKeyword
  }

  /** Token kinds that make up one string literal. */
  predicate IsLiteralPart(k: Kind) {
    k == StringLiteral || k == EscapeSequence || k == InvalidEscapeSequence
  }

  /** A stream as the lexer produces it: `NoToken` is never the kind of a
      token in it, only the answer past its end. */
  predicate WellFormed(t: seq<Token>) {
    forall i :: 0 <= i < |t| ==> t[i].kind != NoToken
  }

  /** In a well-formed stream, `NoToken` answers exactly at the end. */
  lemma NoTokenOnlyAtEnd(t: seq<Token>, p: nat)
    requires WellFormed(t) && p <= |t|
    ensures KindAt(t, p) == NoToken <==> p == |t|
  {
  }

  /** The cursor stands on a significant token or at the end of the stream. */
  predicate Settled(t: seq<Token>, p: nat) {
    p <= |t| && (p < |t| ==> !IsTrivia(t[p].kind))
  }

  /** The kind of the token at raw position `p`, `NoToken` at the end. */
  function KindAt(t: seq<Token>, p: nat): Kind {
    if p < |t| then t[p].kind else NoToken
  }

  /** The first significant position at or after `i`. */
  function SkipTrivia(t: seq<Token>, i: nat): (r: nat)
    requires i <= |t|
    ensures i <= r && Settled(t, r)
    ensures forall j :: i <= j < r ==> IsTrivia(t[j].kind)
    decreases |t| - i
  {
    if i < |t| && IsTrivia(t[i].kind) then SkipTrivia(t, i + 1) else i
  }

  /** Where the cursor goes when the current token is consumed: the next
      significant token; at the end it stays put. */
  function Next(t: seq<Token>, p: nat): (r: nat)
    requires Settled(t, p)
    ensures Settled(t, r)
    ensures p < |t| ==> p < r
    ensures p == |t| ==> r == p
    ensures forall j :: p < j < r ==> IsTrivia(t[j].kind)
  {
    if p < |t| then SkipTrivia(t, p + 1) else p
  }

  /** Consume the current token when `ok` holds. */
  function Accept(t: seq<Token>, p: nat, ok: bool): (r: nat)
    requires Settled(t, p)
    ensures Settled(t, r) && p <= r
  {
    if ok then Next(t, p) else p
  }

  /** The position of the `k`-th significant token after `p`. */
  function LookAhead(t: seq<Token>, p: nat, k: nat): (r: nat)
    requires Settled(t, p)
    ensures Settled(t, r) && p <= r
    ensures 0 < k && p < |t| ==> p < r
    decreases k
  {
    if k == 0 then p else LookAhead(t, Next(t, p), k - 1)
  }

  /** Looking one token further is consuming one more token. */
  lemma {:induction false} LookAheadStep(t: seq<Token>, p: nat, k: nat)
    requires Settled(t, p)
    ensures LookAhead(t, p, k + 1) == Next(t, LookAhead(t, p, k))
    decreases k
  {
    if k > 0 {
      LookAheadStep(t, Next(t, p), k - 1);
    }
  }

  /** Raw index of the nearest significant token before `p`, or -1. */
  function PrecedingIndex(t: seq<Token>, p: nat): (j: int)
    requires p <= |t|
    ensures -1 <= j < p
    ensures 0 <= j ==> !IsTrivia(t[j].kind)
    ensures forall i :: j < i < p ==> IsTrivia(t[i].kind)
  {
    if p == 0 then -1
    else if IsTrivia(t[p - 1].kind) then PrecedingIndex(t, p - 1)
    else p - 1
  }

  /** The kind of the nearest significant token before `p`, `NoToken` if none. */
  function PrecedingKind(t: seq<Token>, p: nat): Kind
    requires p <= |t|
  {
    var j := PrecedingIndex(t, p);
    if j < 0 then NoToken else t[j].kind
  }

  /** End of the run of string-literal and escape tokens that starts at `p`:
      the first significant token of another kind, or the end of the stream. */
  function RunEnd(t: seq<Token>, p: nat): (r: nat)
    requires Settled(t, p)
    ensures p <= r && Settled(t, r)
    ensures !IsLiteralPart(KindAt(t, r))
    ensures forall j :: p <= j < r ==> IsTrivia(t[j].kind) || IsLiteralPart(t[j].kind)
    ensures IsLiteralPart(KindAt(t, p)) ==> p < r
    decreases |t| - p
  {
    if IsLiteralPart(KindAt(t, p)) then RunEnd(t, Next(t, p)) else p
  }

  /** The text of that run: the texts of its tokens, in order. */
  function RunText(t: seq<Token>, p: nat): string
    requires Settled(t, p)
    decreases |t| - p
  {
    if IsLiteralPart(KindAt(t, p)) then t[p].text + RunText(t, Next(t, p)) else ""
  }

  /** Scanning back from `r` over trivia finds the significant token at `p`. */
  lemma {:induction false} PrecedingOverTrivia(t: seq<Token>, p: nat, r: nat)
    requires p < r <= |t| && !IsTrivia(t[p].kind)
    requires forall j :: p < j < r ==> IsTrivia(t[j].kind)
    ensures PrecedingIndex(t, r) == p
    decreases r
  {
    if r - 1 > p {
      PrecedingOverTrivia(t, p, r - 1);
    }
  }

  /** Scanning back from where the cursor lands after consuming a token
      finds that token: the backward scan undoes `Next`. */
  lemma PrecedingOfNext(t: seq<Token>, p: nat)
    requires Settled(t, p) && p < |t|
    ensures PrecedingIndex(t, Next(t, p)) == p
    ensures PrecedingKind(t, Next(t, p)) == t[p].kind
  {
    PrecedingOverTrivia(t, p, Next(t, p));
  }

  /** The texts of the significant tokens in the raw range [i, r), in order. */
  function SignificantTexts(t: seq<Token>, i: nat, r: nat): string
    requires i <= r <= |t|
    decreases r - i
  {
    if i == r then "" else (if IsTrivia(t[i].kind) then "" else t[i].text) + SignificantTexts(t, i + 1, r)
  }

  lemma {:induction false} SignificantTextsSkipTrivia(t: seq<Token>, i: nat, q: nat, r: nat)
    requires i <= q <= r <= |t|
    requires forall j :: i <= j < q ==> IsTrivia(t[j].kind)
    ensures SignificantTexts(t, i, r) == SignificantTexts(t, q, r)
    decreases q - i
  {
    if i < q {
      SignificantTextsSkipTrivia(t, i + 1, q, r);
    }
  }

  /** The text of a literal run is the in-order concatenation of the texts of
      the significant tokens between its start and its end. */
  lemma {:induction false} RunTextIsRunTokens(t: seq<Token>, p: nat)
    requires Settled(t, p)
    ensures RunText(t, p) == SignificantTexts(t, p, RunEnd(t, p))
    decreases |t| - p
  {
    if IsLiteralPart(KindAt(t, p)) {
      var q := Next(t, p);
      var r := RunEnd(t, p);
      RunTextIsRunTokens(t, q);
      assert r == RunEnd(t, q);
      SignificantTextsSkipTrivia(t, p + 1, q, r);
    }
  }
}
