# Angular template-expression parser, modelled in Dafny

This project models the parser of Angular template binding expressions from
the AngularJS plugin for IntelliJ (`Angular2Parser`). The parser is a
recursive-descent parser over a token cursor. It extends a baseline
JavaScript grammar with these pieces:

- the `x in coll` and `(k, v) in coll` repeat forms;
- `let x of coll`;
- the `cond; then a; else b` conditional;
- `let x` hash definitions;
- pipe filters `a | f:x:y` with binary priority fixed at 10;
- adjacent string and escape tokens merged into one literal;
- identifiers after `as` taken as definitions, found by scanning back over trivia;
- `?.` as a qualifier separator.

The parser works by changing one shared tree builder step by step. The
model follows that form:

- `PsiBuilders.PsiBuilder` is a class holding:
  - the raw tokens, trivia included;
  - a cursor that always rests on a significant token or at the end;
  - the committed nodes, each a `(kind, start, end)` triple, children before parents;
  - the diagnostics;
  - a stack of open markers. `Mark` records the cursor and the numbers of nodes and diagnostics. `RollbackTo` truncates back to that record. `Done` closes a node over the span since the marker. `Drop` forgets the marker.
- The grammar rules are methods of `ExpressionParser.Angular2ExpressionParser`, `StatementParser.Angular2StatementParser` and `Angular2.Angular2Parser`, which share one builder and drive it. Each rule's `ensures` gives the new cursor exactly, and the new nodes and diagnostics exactly as the old ones followed by what the rule adds. Both are functions of the tokens and the old position.
  - Functions such as `HashEnd`, `ScanKeyValue`, `ArgumentsEnd`, `RunEnd` and `IfBranchesEnd` say where each rule stops.
  - Functions such as `HashNodes`, `ArgumentsDiags`, `NgIfNodes` and `StatementNodesAt` say what each rule adds.
  - Lemmas prove properties of those functions.
  - A rule that fails and rolls back leaves the builder untouched. A part of a rule that leaves a marker open for the enclosing rule's rollback states that marker too.
- The baseline JavaScript grammar and the message-format parser are not part of this model. Each is represented only by how many significant tokens it consumes from a position. So its end position is a function of the start (`ExpressionEnd`, `UnaryEnd`, ...). It builds one node over what it consumed, and it reports only as described under "Left out".
- The message-format parser is all or nothing: it either advances and succeeds, or fails leaving the builder untouched.
- Some source methods are split into smaller methods, each covering one contiguous block of the original, so that every proof stays small. `parseInExpression` becomes `ParseInExpression`, `ParseBinding`, `ParseSimpleBinding`, `ParseKeyValueBinding` and `ParseRepeatTail`. `doParseStatement` becomes `DoParseStatement`, `ParseBlockStatement`, `ParseLetStatement`, `ParseOtherStatement` and `ParseParenthesizedOrBaseline`. `tryParseNgIfStatement` becomes `TryParseNgIfStatement`, `ParseIfAfterCondition`, `ParseIfPrelude`, `ParseNgIfBranches`, `ParseIfBody` and `ParseIfTrail`. The order of builder operations is unchanged.

Modules, in dependency order:

- `Tokens` (tokens.dfy): tokens and cursor arithmetic.
- `PsiBuilders` (builder.dfy): the builder.
- `Baseline` (baseline.dfy): the baseline and message-format parsers.
- `ExpressionParser` (expression_parser.dfy): the expression overrides.
- `StatementParser` (statement_parser.dfy): the statement overrides.
- `Angular2` (angular2_parser.dfy): the entry point.

Behaviour of the code that is easy to misread, which the model follows:

- A string-literal run is entered only when the first token is a string literal (line 167). An escape-sequence token at the start of a primary expression goes to the baseline grammar.
- An identifier followed by `in` goes to the in-statement, and the statement parser returns whatever its result (lines 41-46). There is no fall-through. That result is in fact always success, because the simple form never fails.
- The key-value form steps over its first token without checking that it is `(` (line 314).
- Conditional branches and the hash-definition name require exactly an `IDENTIFIER` token (lines 120, 279). `of` and `as` are not accepted there, although they are identifier tokens elsewhere.
- The "expected filter" report (line 157) is never made, because `parseFilter` always succeeds.
- The `drop` branch of `parseNgForStatement` (lines 69-72) never runs, because `parseForExpression` always returns true (lines 257 and 273).
- After a conditional, the trailing `;` is checked with the baseline's `checkForSemicolon` (line 110), not merely consumed when present. A missing `;` is reported wherever the baseline requires one.
- The `as` path is entered only on an identifier token, so the "expected identifier" report of `parseExplicitIdentifierWithError` cannot come from it.

## Model

All source paths are in `AngularJS/src/org/angular2/lang/parser/Angular2Parser.java`.

| member | source | states |
|---|---|---|
| Tokens.SkipTrivia | AngularJS/src/org/angular2/lang/parser/Angular2Parser.java:94 | the cursor skips trivia: the result is settled, not before the start, and only trivia lies between |
| Tokens.Next | AngularJS/src/org/angular2/lang/parser/Angular2Parser.java:94 | advancing moves strictly forward unless at the end, lands on a significant token, and skips only trivia |
| Tokens.NoTokenOnlyAtEnd | AngularJS/src/org/angular2/lang/parser/Angular2Parser.java:137 | in a well-formed stream the end-of-input answer is seen exactly at the end, so testing it is the same as testing `eof` |
| Tokens.LookAhead | AngularJS/src/org/angular2/lang/parser/Angular2Parser.java:42 | looking k tokens ahead lands on a settled position, strictly further when k > 0 and not at the end |
| Tokens.LookAheadStep | AngularJS/src/org/angular2/lang/parser/Angular2Parser.java:52 | looking k+1 ahead is advancing once from k ahead |
| Tokens.PrecedingIndex | AngularJS/src/org/angular2/lang/parser/Angular2Parser.java:178-182 | the backward scan stops on the nearest significant token before the cursor, or at -1, with only trivia between |
| Tokens.PrecedingOverTrivia | AngularJS/src/org/angular2/lang/parser/Angular2Parser.java:178-182 | scanning back over a run of trivia finds the significant token before it |
| Tokens.PrecedingOfNext | AngularJS/src/org/angular2/lang/parser/Angular2Parser.java:178-183 | after consuming a token, the backward scan finds exactly that token and its kind: the scan undoes an advance |
| Tokens.RunEnd | AngularJS/src/org/angular2/lang/parser/Angular2Parser.java:236-242 | the literal run is maximal: everything before its end is a literal part or trivia, the token at its end is not a literal part, and a run that starts on a literal part is non-empty |
| Tokens.RunTextIsRunTokens | AngularJS/src/org/angular2/lang/parser/Angular2Parser.java:235-242 | the accumulated literal text is the in-order concatenation of the texts of the significant tokens of the run |
| PsiBuilders.PsiBuilder.AdvanceLexer | AngularJS/src/org/angular2/lang/parser/Angular2Parser.java:94 | the cursor moves to the next significant token; nothing else changes |
| PsiBuilders.PsiBuilder.Mark | AngularJS/src/org/angular2/lang/parser/Angular2Parser.java:88 | pushes a snapshot of cursor, node count and diagnostic count |
| PsiBuilders.PsiBuilder.Done | AngularJS/src/org/angular2/lang/parser/Angular2Parser.java:109 | appends one node from the marker's position to the cursor and pops the marker |
| PsiBuilders.PsiBuilder.Drop | AngularJS/src/org/angular2/lang/parser/Angular2Parser.java:70 | pops the marker and keeps everything built since |
| PsiBuilders.PsiBuilder.RollbackTo | AngularJS/src/org/angular2/lang/parser/Angular2Parser.java:91 | restores cursor, nodes and diagnostics to the marker's snapshot and pops it and every later marker |
| PsiBuilders.PsiBuilder.Error | AngularJS/src/org/angular2/lang/parser/Angular2Parser.java:123 | appends one diagnostic at the cursor |
| PsiBuilders.PsiBuilder.BuildTokenElement | AngularJS/src/org/angular2/lang/parser/Angular2Parser.java:121 | wraps the current token in one node and advances past it |
| Baseline.BaselineParser.ParseExpression | AngularJS/src/org/angular2/lang/parser/Angular2Parser.java:89 | the cursor moves to the baseline expression's end; exactly one node over the consumed span is added, or, when nothing is consumed, no node and one "expected expression" report |
| Baseline.BaselineParser.ParseUnaryExpression | AngularJS/src/org/angular2/lang/parser/Angular2Parser.java:221 | the baseline unary expression succeeds exactly when it consumes something; it then adds one node over its span, otherwise nothing, and reports nothing |
| Baseline.BaselineParser.ParsePrimaryExpression | AngularJS/src/org/angular2/lang/parser/Angular2Parser.java:188 | the baseline primary expression succeeds exactly when it consumes something; it then adds one node over its span, otherwise nothing, and reports nothing |
| Baseline.BaselineParser.StatementEnd | AngularJS/src/org/angular2/lang/parser/Angular2Parser.java:64 | a baseline statement consumes at least one token unless at the end |
| Baseline.BaselineParser.DoParseStatement | AngularJS/src/org/angular2/lang/parser/Angular2Parser.java:64 | the baseline statement ends where `StatementEnd` says, adds one EXPRESSION_STATEMENT over its span, and reports "expected statement" exactly when it does not parse |
| Baseline.BaselineParser.ExpressionStatementEnd | AngularJS/src/org/angular2/lang/parser/Angular2Parser.java:37 | a baseline expression statement consumes at least one token unless at the end |
| Baseline.BaselineParser.ParseExpressionStatement | AngularJS/src/org/angular2/lang/parser/Angular2Parser.java:37 | the baseline expression statement ends where `ExpressionStatementEnd` says, adds one EXPRESSION_STATEMENT over its span and reports nothing |
| Baseline.BaselineParser.SemicolonEnd | AngularJS/src/org/angular2/lang/parser/Angular2Parser.java:110 | the `;` check never moves back |
| Baseline.BaselineParser.CheckForSemicolon | AngularJS/src/org/angular2/lang/parser/Angular2Parser.java:110 | consumes a `;` if present, otherwise reports "expected semicolon" at the cursor unless the baseline allows it to be missing; builds no node |
| Baseline.MessageFormatParser.ParseMessage | AngularJS/src/org/angular2/lang/parser/Angular2Parser.java:175 | all or nothing: succeeds iff a placeholder starts here, having advanced and added one node over the placeholder; on failure the builder is untouched |
| ExpressionParser.HashEnd | AngularJS/src/org/angular2/lang/parser/Angular2Parser.java:276-285 | a hash definition ends after `let` and, when it is an identifier, the name |
| ExpressionParser.HashDefinitionShape | AngularJS/src/org/angular2/lang/parser/Angular2Parser.java:276-285 | a hash definition always advances, closes one VAR_STATEMENT over its span as its last node, with only VARIABLEs before it, and reports one diagnostic iff the next token is not an identifier |
| ExpressionParser.HashNodesHoldNo | AngularJS/src/org/angular2/lang/parser/Angular2Parser.java:276-285 | a hash definition builds nothing but VARIABLE and VAR_STATEMENT nodes |
| ExpressionParser.Angular2ExpressionParser.ParseHashDefinition | AngularJS/src/org/angular2/lang/parser/Angular2Parser.java:276-285 | cursor, nodes and diagnostics are exactly those of the hash-definition functions |
| ExpressionParser.Angular2ExpressionParser.ForEnd | AngularJS/src/org/angular2/lang/parser/Angular2Parser.java:251-274 | a for expression ends no earlier than its hash definition |
| ExpressionParser.Angular2ExpressionParser.ForExpressionShape | AngularJS/src/org/angular2/lang/parser/Angular2Parser.java:251-274 | the hash definition's nodes come first, and a FOR_EXPRESSION over the whole is the last node exactly when `of` follows the hash definition |
| ExpressionParser.Angular2ExpressionParser.ParseForExpression | AngularJS/src/org/angular2/lang/parser/Angular2Parser.java:251-274 | always succeeds; cursor, nodes and diagnostics are exactly those of the for-expression functions: the hash definition, then with `of` the collection and a FOR_EXPRESSION |
| ExpressionParser.ScanKeyValue | AngularJS/src/org/angular2/lang/parser/Angular2Parser.java:313-337 | the key-value form's positions are ordered, settled, and it consumes at least its first token |
| ExpressionParser.Angular2ExpressionParser.ParseKeyValue | AngularJS/src/org/angular2/lang/parser/Angular2Parser.java:313-337 | cursor, nodes and diagnostics are exactly those of the key-value functions: each missing part is reported and skipped, the VARIABLEs found and one VAR_STATEMENT are added |
| ExpressionParser.SlotEnd | AngularJS/src/org/angular2/lang/parser/Angular2Parser.java:316-320 | an identifier slot is consumed only when an identifier token is there |
| ExpressionParser.Angular2ExpressionParser.ParseSlot | AngularJS/src/org/angular2/lang/parser/Angular2Parser.java:316-320 | one identifier slot of the key-value form: a VARIABLE when the token is an identifier token, otherwise "expected identifier" and nothing consumed |
| ExpressionParser.Angular2ExpressionParser.ExpectToken | AngularJS/src/org/angular2/lang/parser/Angular2Parser.java:321-325 | a required `,` or `)` is consumed when present and reported, unconsumed, when not; no node is built |
| ExpressionParser.BindingEnd | AngularJS/src/org/angular2/lang/parser/Angular2Parser.java:289-302 | the binding ends no earlier than it starts, and when it is found the collection starts strictly after the first token |
| ExpressionParser.Angular2ExpressionParser.ParseBinding | AngularJS/src/org/angular2/lang/parser/Angular2Parser.java:289-302 | the binding is found exactly as the binding predicate says; when found, exactly its nodes and diagnostics are added; otherwise exactly the key-value form's, with its marker left open for the rollback |
| ExpressionParser.Angular2ExpressionParser.ParseSimpleBinding | AngularJS/src/org/angular2/lang/parser/Angular2Parser.java:289-292 | the identifier becomes a VARIABLE inside a VAR_STATEMENT and nothing is reported |
| ExpressionParser.Angular2ExpressionParser.ParseKeyValueBinding | AngularJS/src/org/angular2/lang/parser/Angular2Parser.java:294-301 | the key-value form is closed as a PARENTHESIZED_EXPRESSION exactly when `in` follows it; otherwise its marker is left open over exactly the key-value form's nodes and diagnostics |
| ExpressionParser.Angular2ExpressionParser.ParseRepeatTail | AngularJS/src/org/angular2/lang/parser/Angular2Parser.java:303-309 | steps over the `in` token, adds exactly the collection expression's nodes and diagnostics, and closes the REPEAT_EXPRESSION from the marker's position |
| ExpressionParser.Angular2ExpressionParser.InEnd | AngularJS/src/org/angular2/lang/parser/Angular2Parser.java:287-311 | a repeat expression whose binding is found ends strictly after its start |
| ExpressionParser.Angular2ExpressionParser.InExpressionShape | AngularJS/src/org/angular2/lang/parser/Angular2Parser.java:287-311 | when the binding is found, its nodes come first and a REPEAT_EXPRESSION over the whole span is the last node |
| ExpressionParser.Angular2ExpressionParser.ParseInExpression | AngularJS/src/org/angular2/lang/parser/Angular2Parser.java:287-311 | succeeds iff the binding is found (an identifier first, or `in` after the key-value prefix); on failure the builder is untouched; on success cursor, nodes and diagnostics are exactly those of the repeat-expression functions |
| ExpressionParser.Angular2ExpressionParser.ArgumentsEnd | AngularJS/src/org/angular2/lang/parser/Angular2Parser.java:218-224 | the argument loop stops on the first non-colon token after each colon's unary argument, strictly later when a colon is seen |
| ExpressionParser.Angular2ExpressionParser.ArgumentCount | AngularJS/src/org/angular2/lang/parser/Angular2Parser.java:218-224 | a filter's argument list holds at least one argument exactly when it starts on a `:` |
| ExpressionParser.Angular2ExpressionParser.ArgumentsNodesCount | AngularJS/src/org/angular2/lang/parser/Angular2Parser.java:218-224 | each `:` of the argument loop yields exactly one of an argument node and an "expected expression" report; every argument node is the baseline unary expression's, after the first `:` and within the list |
| ExpressionParser.Angular2ExpressionParser.ArgumentsDiagsReport | AngularJS/src/org/angular2/lang/parser/Angular2Parser.java:218-224 | every report of the argument loop is "expected expression", made strictly after the loop's start and no later than its end |
| ExpressionParser.Angular2ExpressionParser.FilterExpressionShape | AngularJS/src/org/angular2/lang/parser/Angular2Parser.java:214-230 | a filter is a REFERENCE_EXPRESSION for its name first and a FILTER_EXPRESSION over the whole last, with an ARGUMENT_LIST from the first `:` just before it exactly when a `:` follows the name, and nothing else otherwise |
| ExpressionParser.Angular2ExpressionParser.ParseFilter | AngularJS/src/org/angular2/lang/parser/Angular2Parser.java:214-230 | always succeeds; ends where the argument loop after the name ends, with exactly the filter's nodes and the argument loop's reports |
| ExpressionParser.Angular2ExpressionParser.ParseFilterArguments | AngularJS/src/org/angular2/lang/parser/Angular2Parser.java:217-227 | the argument loop ends where the argument-list function says and reports exactly what it says; with a `:` there it adds each argument's nodes and then an ARGUMENT_LIST from the first `:`, otherwise nothing changes |
| ExpressionParser.Angular2ExpressionParser.ParseFilterArgument | AngularJS/src/org/angular2/lang/parser/Angular2Parser.java:220-223 | one argument: the `:` and a baseline unary expression, whose node is added; "expected expression" is reported exactly when the unary expression consumes nothing |
| ExpressionParser.Angular2ExpressionParser.ParseStringLiteral | AngularJS/src/org/angular2/lang/parser/Angular2Parser.java:232-249 | consumes the maximal literal run, closes one LITERAL_EXPRESSION over it, and reports exactly what validating the concatenated run text finds, at the end of the run |
| ExpressionParser.Angular2ExpressionParser.CollectLiteralText | AngularJS/src/org/angular2/lang/parser/Angular2Parser.java:234-242 | the loop stops at the end of the maximal literal run and returns the concatenated text of its tokens, adding no nodes or diagnostics |
| ExpressionParser.Angular2ExpressionParser.ParseExplicitIdentifierWithError | AngularJS/src/org/angular2/lang/parser/Angular2Parser.java:191-199 | an identifier token becomes a reference inside a DEFINITION_EXPRESSION; anything else is reported and not consumed |
| ExpressionParser.Angular2ExpressionParser.PrecedingTokenType | AngularJS/src/org/angular2/lang/parser/Angular2Parser.java:178-182 | the backward loop finds the kind of the nearest significant token before the cursor |
| ExpressionParser.Angular2ExpressionParser.ParsePrimaryExpression | AngularJS/src/org/angular2/lang/parser/Angular2Parser.java:164-189 | the order of alternatives, each with its exact cursor, nodes and diagnostics: string run on STRING_LITERAL, hash definition on `let`, placeholder, identifier after `as`, then the baseline, which alone can fail |
| ExpressionParser.Angular2ExpressionParser.ParseUnaryExpression | AngularJS/src/org/angular2/lang/parser/Angular2Parser.java:151-162 | after a pipe, a filter that always succeeds, with exactly the filter's nodes and reports; otherwise exactly the baseline unary expression |
| ExpressionParser.Angular2ExpressionParser.ParsePipeFilter | AngularJS/src/org/angular2/lang/parser/Angular2Parser.java:155-159 | after the pipe, the filter always succeeds, with exactly the filter's nodes and the argument loop's reports |
| ExpressionParser.IsReferenceQualifierSeparator | AngularJS/src/org/angular2/lang/parser/Angular2Parser.java:201-206 | `?.` and `.` are exactly the qualifier separators |
| ExpressionParser.Angular2ExpressionParser.GetCurrentBinarySignPriority | AngularJS/src/org/angular2/lang/parser/Angular2Parser.java:208-212 | the pipe has priority 10 whatever allowIn and advance are; other tokens get the baseline's priority |
| StatementParser.BranchEnd | AngularJS/src/org/angular2/lang/parser/Angular2Parser.java:117-126 | a branch consumes its keyword, and its argument only when it is exactly an identifier |
| StatementParser.Angular2StatementParser.ParseBranch | AngularJS/src/org/angular2/lang/parser/Angular2Parser.java:117-126 | cursor, nodes and diagnostics are exactly those of the branch functions |
| StatementParser.IfPreludeEnd | AngularJS/src/org/angular2/lang/parser/Angular2Parser.java:94-98 | the `;` is consumed, so the branches start strictly after it |
| StatementParser.IfPreludeHoldsNoIf | AngularJS/src/org/angular2/lang/parser/Angular2Parser.java:94-98 | the optional `let x` before the branches builds no IF_STATEMENT |
| StatementParser.Angular2StatementParser.ParseIfPrelude | AngularJS/src/org/angular2/lang/parser/Angular2Parser.java:94-98 | cursor, nodes and diagnostics are exactly those of the prelude functions: the `;`, and the hash definition's when `let` follows |
| StatementParser.Angular2StatementParser.BranchesStart | AngularJS/src/org/angular2/lang/parser/Angular2Parser.java:89-98 | where the branches of a conditional start is a settled position |
| StatementParser.ElseStart | AngularJS/src/org/angular2/lang/parser/Angular2Parser.java:104-107 | the `else` branch starts no earlier than the end of the `then` branch |
| StatementParser.IfBranchesEnd | AngularJS/src/org/angular2/lang/parser/Angular2Parser.java:104-108 | the branches end no earlier than they start, strictly later when `then` or `else` is there |
| StatementParser.IfBodyHoldsNoIf | AngularJS/src/org/angular2/lang/parser/Angular2Parser.java:104-108 | the branches build no IF_STATEMENT |
| StatementParser.Angular2StatementParser.ParseIfBody | AngularJS/src/org/angular2/lang/parser/Angular2Parser.java:104-108 | cursor, nodes and diagnostics are exactly those of the two branches, with the optional `;` between them |
| StatementParser.Angular2StatementParser.NgIfEnd | AngularJS/src/org/angular2/lang/parser/Angular2Parser.java:104-109 | the IF_STATEMENT ends at a settled position |
| StatementParser.IfTrailEnd | AngularJS/src/org/angular2/lang/parser/Angular2Parser.java:110-113 | the trailing `;` check and optional `let x` never move back |
| StatementParser.IfTrailHoldsNoIf | AngularJS/src/org/angular2/lang/parser/Angular2Parser.java:110-113 | the trailing `let x` builds no IF_STATEMENT |
| StatementParser.Angular2StatementParser.ParseIfTrail | AngularJS/src/org/angular2/lang/parser/Angular2Parser.java:110-113 | cursor, nodes and diagnostics are exactly those of the `;` check followed by the optional `let x` |
| StatementParser.Angular2StatementParser.NgIfTrailEnd | AngularJS/src/org/angular2/lang/parser/Angular2Parser.java:87-115 | a matched conditional ends strictly after its start |
| StatementParser.Angular2StatementParser.ParseNgIfBranches | AngularJS/src/org/angular2/lang/parser/Angular2Parser.java:104-114 | exactly the branches' nodes, then one IF_STATEMENT from the marker to the end of the branches, then the trail's nodes; diagnostics of the branches and the trail; the marker is popped |
| StatementParser.Angular2StatementParser.NgIfClosesOneIfStatement | AngularJS/src/org/angular2/lang/parser/Angular2Parser.java:87-115 | a matched conditional builds exactly one IF_STATEMENT, and it spans the condition and the branches |
| StatementParser.Angular2StatementParser.TryParseNgIfStatement | AngularJS/src/org/angular2/lang/parser/Angular2Parser.java:87-115 | succeeds iff a `;` follows the condition and `then` or `else` follows the optional `let x`; on failure the builder is untouched; on success cursor, nodes and diagnostics are exactly those of the conditional's functions |
| StatementParser.Angular2StatementParser.ParseIfAfterCondition | AngularJS/src/org/angular2/lang/parser/Angular2Parser.java:94-114 | after the condition's `;`: the attempt matches iff `then` or `else` follows the prelude; then exactly the rest of the conditional's nodes and reports are added and the marker is popped; otherwise exactly the prelude's, with the cursor where the branches would start and the marker open for the rollback |
| StatementParser.Angular2StatementParser.InStatementShape | AngularJS/src/org/angular2/lang/parser/Angular2Parser.java:77-85 | a repeat statement ends with its REPEAT_EXPRESSION and then an EXPRESSION_STATEMENT, both over the whole span |
| StatementParser.Angular2StatementParser.ParseInStatement | AngularJS/src/org/angular2/lang/parser/Angular2Parser.java:77-85 | succeeds iff the in-expression does; then exactly the repeat expression's nodes and an EXPRESSION_STATEMENT, and its reports; on failure the builder is untouched |
| StatementParser.Angular2StatementParser.ForStatementEnd | AngularJS/src/org/angular2/lang/parser/Angular2Parser.java:67-75 | a for statement consumes at least one token unless at the end |
| StatementParser.Angular2StatementParser.ForStatementShape | AngularJS/src/org/angular2/lang/parser/Angular2Parser.java:67-75 | a for statement ends with an EXPRESSION_STATEMENT over its span, preceded by a FOR_EXPRESSION exactly when `of` follows, and by only the hash definition otherwise |
| StatementParser.Angular2StatementParser.ParseNgForStatement | AngularJS/src/org/angular2/lang/parser/Angular2Parser.java:67-75 | always closes the statement: cursor, nodes and diagnostics are exactly those of the for expression, the `;` check and an EXPRESSION_STATEMENT |
| StatementParser.Angular2StatementParser.ParseForClause | AngularJS/src/org/angular2/lang/parser/Angular2Parser.java:69-73 | exactly the for expression's nodes and reports, then the `;` check's |
| StatementParser.Angular2StatementParser.BlockEnd | AngularJS/src/org/angular2/lang/parser/Angular2Parser.java:36-39 | a statement on `{` consumes at least one token |
| StatementParser.Angular2StatementParser.ParseBlockStatement | AngularJS/src/org/angular2/lang/parser/Angular2Parser.java:36-39 | `{` starts a baseline expression statement, whose one node is added, then the `;` check, whose report is added |
| StatementParser.Angular2StatementParser.ParseLetStatement | AngularJS/src/org/angular2/lang/parser/Angular2Parser.java:51-58 | `let` is a for statement unless the token two ahead is `=`, then a baseline expression statement; each route with its exact cursor, nodes and diagnostics |
| StatementParser.Angular2StatementParser.ParseParenthesizedOrBaseline | AngularJS/src/org/angular2/lang/parser/Angular2Parser.java:59-64 | `(` with `in` after the key-value form is a repeat statement, anything else the baseline statement; each route with its exact cursor, nodes and diagnostics, and a failed repeat attempt leaves nothing behind |
| StatementParser.Angular2StatementParser.ParseOtherStatement | AngularJS/src/org/angular2/lang/parser/Angular2Parser.java:51-64 | after the conditional fails: the `let` forms, then `(` with `in`, then the baseline statement, each with its exact cursor, nodes and diagnostics |
| StatementParser.Angular2StatementParser.DoParseStatement | AngularJS/src/org/angular2/lang/parser/Angular2Parser.java:34-65 | the dispatch order: `{`, identifier then `in`, the conditional, `let` (for statement unless `=` is two ahead), `(` with `in`, the baseline; for each route the exact cursor, nodes and diagnostics of that route's parse; every statement consumes a token |
| StatementParser.Angular2StatementParser.StatementEndAt | AngularJS/src/org/angular2/lang/parser/Angular2Parser.java:34-65 | whatever route the dispatch takes, the statement consumes at least one token unless at the end |
| StatementParser.Angular2StatementParser.StatementShape | AngularJS/src/org/angular2/lang/parser/Angular2Parser.java:34-65 | every statement closes its own node from its start: a conditional exactly one IF_STATEMENT, every other route an EXPRESSION_STATEMENT as its last node, over the whole statement except for the `;` after `{` |
| StatementParser.Angular2StatementParser.ParseStatement | AngularJS/src/org/angular2/lang/parser/Angular2Parser.java:138 | one statement: cursor, nodes and diagnostics are those of the route the dispatch takes at the cursor |
| Angular2.IdentifierNamesAddThen | AngularJS/src/org/angular2/lang/parser/Angular2Parser.java:130-133 | `then` is the only identifier name added to the baseline's, and it is not an identifier token |
| Angular2.Angular2Parser.ParseAngular | AngularJS/src/org/angular2/lang/parser/Angular2Parser.java:135-141 | parses to the end of the stream; the nodes are exactly those of the statements one after another, each along its route, then one root node over the whole span; the diagnostics are exactly the statements' in order |

## Left out

- The baseline JavaScript grammar behind the `super.*` calls, `parseExpression`, `parseExpressionStatement`, `checkForSemicolon` and the baseline `doParseStatement`: not shown, so each is an oracle giving the number of tokens consumed. The oracles do not call back into the Angular overrides: nested filters, string runs or placeholders inside a baseline expression build baseline nodes here.
- Baseline.BaselineParser.DoParseStatement: assumed to consume at least one token, as the baseline does by reporting and skipping an unparsable token. Without this, `parseAngular` need not terminate. The same holds for `ParseExpressionStatement`, which is only reached on `{` and `let`.
- Baseline.BaselineParser.ParseExpression: the baseline expression's subtree is one node over what it consumes, and its reports are one "expected expression" when it consumes nothing. The baseline's real subtree and its reports inside a partly parsed expression are not shown.
- Baseline.BaselineParser.ParseUnaryExpression: taken to succeed exactly when it consumes something, and to build nothing and report nothing when it fails. The same holds for `ParsePrimaryExpression`. The baseline's own reports inside a unary or primary expression are not shown.
- Baseline.BaselineParser.DoParseStatement: the baseline statement's subtree is one EXPRESSION_STATEMENT over what it consumes, with "expected statement" when it cannot parse. `ParseExpressionStatement` likewise builds one EXPRESSION_STATEMENT and reports nothing.
- Baseline.BaseIsReferenceQualifierSeparator: the baseline's qualifier separators are fixed to `.`. The baseline's full set is not shown.
- Baseline.BaselineParser.CheckForSemicolon: the baseline's rule for when a `;` may be left out (end of input, line breaks, a closing brace) is an oracle.
- The message-format parser's grammar: not shown. It is an all-or-nothing oracle over the position, whose subtree is one node over the placeholder.
- `validateLiteralText`: not shown. It is an oracle from the literal text to an optional message.
- `isIdentifierToken` is fixed to identifiers, `of` and `as`. The baseline's full set of contextual keywords is not shown.
- `getCurrentBinarySignPriority`: the baseline's priorities and the effect of `advance` on the cursor are not modelled. Only the pipe's fixed priority is.
- `isIdentifierName` only matters inside the baseline grammar, so nothing in the model consults it besides its lemma.
- The `canHaveClasses` parameter of `doParseStatement` has no effect on the Angular overrides and is dropped. `parseStatement` is modelled as `ParseStatement`, which only calls `DoParseStatement`. Any error recovery the baseline wraps around it is not shown.
- The commented-out `trackBy` handling (lines 262-271, 305-308).
- Node ends are raw positions of the next significant token, so trailing trivia is included. The builder's binding of trivia to node edges is not modelled.
- The tree is a flat list of nodes in closing order. PSI element identity, the tree shape and incremental reparsing are not modelled.
- `Angular2HtmlEvent.java` is an interface with two getters and no logic, and is not part of this model.
- Diagnostic messages are fixed strings rather than bundle lookups.
- Token kinds include `NoToken`, the answer past the end of the stream. A builder is only made over a stream that does not contain it (`Tokens.WellFormed`), so `NoToken` at the cursor means the end.
