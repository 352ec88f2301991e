# A verified model of the lexer, symbol table and evaluator of a small compiler

This project models three parts of a toy compiler written in Rust and proves what they promise.

- **Lexer** (`lexer.dfy`, module `Lexer`). A cursor walks the source text and hands out one token per `next_token` call:
  - maximal runs of decimal digits become `Integer` tokens holding an `i16`;
  - maximal runs of letters and `_` become keywords or `Identifier`s;
  - one-character punctuation is recognised directly;
  - `=`, `!`, `<` and `>` look one character ahead for a following `=`;
  - `&` and `|` take the next character with them, whatever it is;
  - the end of the text and every unrecognised character give `EOF`.

  The class `Lexer.Lexer` keeps the fields of `Lexer` in src/lexer.rs (`position`, `read_position`, `ch`). The `Peekable<Chars>` iterator becomes an index `cursor` into the text. Its `Valid()` invariant says the whole state is a function of `read_position`. Each `NextToken` call is proved equal to the pure function `Scan` of the text and the old `read_position`. `Scan` states maximal munch, the token kinds and the span positions.

  In the model, the three arms of `next_token` are three methods:
  - `LexNumber` is the number arm;
  - `LexWord` is the identifier arm;
  - `MatchSymbol` is the `match` on `ch`.

  `NextToken` calls them where the Rust lexer has the arms inline.

- **Symbol table** (`codegen.dfy`, module `CodeGen`). `SymbolTable` is a class with `store` (a `map`), `definitions` (a `seq`) and the enclosing table `outer`.
  - `Define` hands out slot indices 0, 1, 2, … in definition order. The scope is `Global` at the top level and `Local` in an enclosed table. A redefinition overwrites the `store` entry and gets a fresh, larger index.
  - `Resolve` is proved equal to `LookupIn`, an independent reference definition: the binding in the innermost scope that has the name.
  - The bytecode `Instruction`, `Object` and `Function` types are transcribed as datatypes. The `Function` struct is called `CompiledFunction` here.
  - `CodeGen`'s constructor is modelled as well.

- **Evaluator** (`evaluator.dfy`, module `Evaluator`).
  - `visit_binary`: integer `+`, `-`, `*`, `/` and `>`, with Rust's truncating division. Anything else gives `None`.
  - `visit_block`: runs statements in order and stops at the first one that yields a value.
  - The evaluator's state is a type parameter `S`. Leaf visitors that the source never defines are function parameters.

Shared pieces:
- `wrappers.dfy` holds Rust's `Option`.
- `primitives.dfy` holds the integer widths `i16` and `i64`.

## Model

| member | source | states |
|---|---|---|
| Lexer.HandleNumber | src/lexer.rs:295-298 | a run of digits whose value fits in `i16` becomes `Integer` carrying exactly that decimal value |
| Lexer.HandleIdentifier | src/lexer.rs:269-279 | the result is an `Identifier` iff the word is not one of `def fun ret if else for`; it then carries the word; otherwise it is the keyword spelled by the word |
| Lexer.KeywordRoundTrip | src/lexer.rs:269-279 | reading any keyword's spelling gives that keyword back |
| Lexer.ScanNumber | src/lexer.rs:168-171 | a number token covers the maximal run of digits from its first character: the next unread character is not a digit, the literal is exactly the run, the span runs from its first to its last digit, the value is the run's |
| Lexer.ScanWord | src/lexer.rs:172-175 | an identifier token covers the maximal run of letters and `_`: the next unread character cannot continue it, the literal is exactly the run, the kind is `HandleIdentifier` of it |
| Lexer.ScanSymbol | src/lexer.rs:178-218 | single punctuation consumes one character; `=` `!` `<` `>` consume a following `=` and give the two-character kind, else give the one-character kind and consume nothing more; `&` and `\|` consume the next character whatever it is; `EOF` iff the character starts no punctuation |
| Lexer.Scan | src/lexer.rs:159-231 | whitespace is skipped; digits are tried before letters before punctuation; the span's `start` is the token's first index and `end` its last consumed index; the result is `EOF` iff the text is exhausted or the next character starts no token; once at the end of the text, every later call is at the end too |
| Lexer.DigitChars | src/lexer.rs:306-308 | `is_num_start` (`is_digit(10)`) holds of exactly the ten characters `0`…`9` |
| Lexer.WhitespaceChars | src/lexer.rs:235-236 | within ASCII, `is_whitespace` holds of exactly tab, line feed, vertical tab, form feed, carriage return and space; no digit and not the end-of-text `'\0'` is whitespace |
| Lexer.IdentifierChars | src/lexer.rs:310-312 | with `is_alphabetic` true of the ASCII letters only, `is_identifier_start` holds within ASCII of exactly the letters and `_`, and never of a digit or `'\0'` |
| Lexer.Length | src/lexer.rs:113-115 | `_length` as written: `end - start` |
| Lexer.Contains | src/lexer.rs:118-120 | `_contains` as written: it holds of exactly the `_length` positions from `start` on, so a span with `start == end` contains nothing |
| Lexer.LengthAndContainsMissLastChar | src/lexer.rs:113-120 | on every span `next_token` builds, `_length` is one less than the characters consumed and `_contains` is false at the token's last character |
| Lexer.SingleCharSpanIsEmpty | src/lexer.rs:228 | lexing `+` gives span (0, 0): `_length` is 0 and `_contains` holds of no position |
| Lexer.InclusiveLength | src/lexer.rs:113-115 | corrected length of an inclusive span: positive, `end - start + 1` |
| Lexer.InclusiveContains | src/lexer.rs:118-120 | corrected `_contains`: it holds of exactly the `InclusiveLength` positions from `start` on, `start` included |
| Lexer.InclusiveSpanCoversToken | src/lexer.rs:166-175 | with the inclusive reading, a token's span covers exactly the positions the call consumed, and for numbers, identifiers and keywords its length is that of the literal |
| Lexer.Lexer.constructor | src/lexer.rs:149-156 | a fresh lexer is at position 0, read position 0, `ch == '\0'`, and satisfies the invariant |
| Lexer.Lexer.Peek | src/lexer.rs:243-245 | in a valid state, `peek` yields a character iff `read_position` is inside the text, and that character is the one the next `consume_char` stores in `ch` |
| Lexer.Lexer.ConsumeChar | src/lexer.rs:248-253 | `position` becomes the old `read_position`, `read_position` grows by one, `ch` is the next character or `'\0'` past the end |
| Lexer.Lexer.SkipWhitespace | src/lexer.rs:233-241 | consumes exactly the maximal run of whitespace at the cursor, so afterwards the text is exhausted or the next character is not whitespace |
| Lexer.Lexer.ReadIdentifier | src/lexer.rs:255-267 | returns `ch` followed by the maximal run of letters and `_`, all consumed |
| Lexer.Lexer.ReadNumber | src/lexer.rs:282-293 | returns `ch` followed by the maximal run of digits, all consumed |
| Lexer.Lexer.HandleDoubleChar | src/lexer.rs:314-325 | if the next character is `pun` it is consumed and `double` returned; otherwise `single` is returned and nothing changes |
| Lexer.Lexer.MatchSymbol | src/lexer.rs:178-218 | the `match` on `ch` and the span built after it agree with `ScanSymbol` |
| Lexer.Lexer.LexNumber | src/lexer.rs:168-171 | the number arm agrees with `ScanNumber` |
| Lexer.Lexer.LexWord | src/lexer.rs:172-175 | the identifier arm agrees with `ScanWord` |
| Lexer.Lexer.NextToken | src/lexer.rs:159-231 | always returns `Some`, and the token and the new `read_position` are those of `Scan` |
| CodeGen.ScopeFor | src/codegen.rs:108-112 | `define`'s scope is `Global` iff the table has no `outer`, and never `Function` |
| CodeGen.DefinePreservesConsistent | src/codegen.rs:114-121 | a `define` step keeps indices equal to positions in `definitions` and `store` pointing at each name's latest definition; a redefined name gets a larger index than the one it hides |
| CodeGen.DefineAll | src/codegen.rs:117-121 | defining `n0, n1, …` in a fresh table hands out indices 0, 1, … in order, one `definitions` entry per call even for repeated names |
| CodeGen.LookupIn | src/codegen.rs:126-136 | the lookup is `None` iff no scope in the chain has the name; otherwise it is the binding of the first (innermost) scope that has it |
| CodeGen.InnermostShadows | src/codegen.rs:127-128 | a binding in the innermost scope wins over every outer binding of the same name |
| CodeGen.EmptyScopeIsTransparent | src/codegen.rs:101-105 | a freshly enclosed, empty table resolves every name as its outer table does |
| CodeGen.LookupAfterBind | src/codegen.rs:120 | after binding `name` in the innermost scope, `name` resolves to the new symbol and every other name resolves as before |
| CodeGen.SymbolTable.constructor | src/codegen.rs:92-99 | a new table has an empty store and definitions, scope index 0, no outer table, and one empty scope |
| CodeGen.SymbolTable.NewEnclosed | src/codegen.rs:101-105 | an enclosed table is empty, has the given `outer`, and its chain of scopes is an empty scope followed by the outer table's |
| CodeGen.SymbolTable.Define | src/codegen.rs:107-124 | returns the symbol with the table's scope and index equal to the number of earlier definitions; appends it to `definitions`, overwrites `store[name]`; afterwards `resolve(name)` gives it, every other name resolves as before, and the outer tables are unchanged |
| CodeGen.SymbolTable.Resolve | src/codegen.rs:126-136 | agrees with `LookupIn` on the chain of scopes, innermost first |
| CodeGen.CodeGen.constructor | src/codegen.rs:37-43 | no instructions or constants, and a fresh top-level table with one empty scope |
| Evaluator.TruncDivRemainder | src/evaluator.rs:136 | Rust's quotient leaves a remainder smaller than the divisor in absolute value and zero or of the dividend's sign |
| Evaluator.TruncDivUnique | src/evaluator.rs:136 | Rust's quotient is the only quotient with such a remainder |
| Evaluator.ApplyBinary | src/evaluator.rs:130-142 | the result is `Some` iff both operands are integers and the operator is `+ - * / >`; `>` gives `Bool(l > r)`, the others give `Integer` with the sum, difference, product or truncated quotient |
| Evaluator.BinaryMeaning | src/evaluator.rs:127-143 | `visit_binary` evaluates the right operand from the state the left one left and ends in the state the right one leaves; its value is `Some` iff both operands evaluated to integers and the operator is `+ - * / >`, and then is the sum, difference, product, quotient truncated toward zero, or `Bool(l > r)` |
| Evaluator.VisitExpr | src/visitor.rs:35-44 | every expression but a binary one goes to its own visitor once, from the current state; a binary expression never yields a string or a character |
| Evaluator.LeftBeforeRight | src/evaluator.rs:128-129 | the whole left operand is evaluated before any of the right: a recording leaf visitor sees the leaves in left-to-right order, each state threaded into the next |
| Evaluator.VisitStmt | src/visitor.rs:13-23 | every statement but a block goes to its own visitor once, from the current state; an empty block yields `None` and leaves the state as it was; a block of one statement behaves as that statement |
| Evaluator.RunBlockAppend | src/evaluator.rs:110-118 | running `first + rest` runs `first`, and runs `rest` from the state it left only if `first` yielded `None` |
| Evaluator.FirstValueWins | src/evaluator.rs:111-116 | the first statement that yields a value decides the block's result and final state, whatever follows |
| Evaluator.NoneWhenAllNone | src/evaluator.rs:110-118 | a block yields `None` iff every statement, run in turn, yields `None`, so an empty block yields `None` |
| Evaluator.VisitBlock | src/evaluator.rs:109-119 | the `for` loop with its early return computes `RunBlock` |

## Left out

- The virtual machine in `src/vm.rs` is not modelled. It declares fields and has no behaviour.
- Compiler emission is not modelled. `compile_statement` is commented out in `src/codegen.rs`.
- The parser, `src/main.rs` and the Rust notes file are not part of this model.
- `src/visitor.rs` has no separate model. Its routing is the `match` inside `VisitExpr` and `VisitStmt`.
- Visitor methods the evaluator never defines are parameters of the model. These are `visit_unary`, `visit_literal`, `visit_variable`, `visit_call`, `visit_assign` and every statement visitor except `visit_block`. They are `leaf` for expressions and `other` for statements.
- The unfinished `visit_if` is not modelled. Neither are `create_sample_ast`, `Evaluator::new`, `evaluate` and the unused `variables` map.
- Lexer extras that are not modelled:
  - the `Display` impl of `TokenKind`;
  - `Token::new`, `TextSpan::new` and `_is_at_end`;
  - the dead substring computation inside `next_token`.
- `char::is_alphabetic` is the parameter `isAlphabetic` of the model, since the Unicode tables are not reproduced. `Lexer.Lexer.constructor` requires it to agree with Unicode within ASCII: letters, and nothing else. `char::is_whitespace` is modelled exactly.
- Rust panics are preconditions, not modelled behaviour:
  - `parse::<i16>().unwrap()` on a run over 32767 is excluded by `NumberFits`, on `Lexer.Lexer.NextToken` and `Lexer.Scan`;
  - `i64` overflow and division by zero are excluded by `Panics` and `PanicFree`, on `Evaluator.ApplyBinary` and `Evaluator.VisitExpr`.
- `usize` counters are `nat`. The overflow of `read_position` after 2^64 calls is not modelled.
- CodeGen.SymbolTable.NewEnclosed: Rust moves `outer` into the new table, so nothing else can change it afterwards. The model shares the reference and does not forbid a caller from defining into `outer` later.
- `scope_index` is never read or changed by the source. It is a field that stays 0.
- `HashMap` and `Vec` are `map` and `seq`. Iteration order and capacity are not modelled.

## Findings

| source | as written | input that shows it | evidently intended | confidence | as-written member | corrected member |
|---|---|---|---|---|---|---|
| src/lexer.rs:113-120 | `_length` is `end - start` and `_contains(pos)` is `start <= pos < end`, but `next_token` sets `end` to the index of the token's last character (src/lexer.rs:171, 175, 221, 228), an inclusive end | the text `+`: its token has span (0, 0), so `_length` is 0 and `_contains` holds of no position although the token covers position 0 | `_length` is `end - start + 1` and `_contains(pos)` is `start <= pos <= end` | medium, not executed | Lexer.LengthAndContainsMissLastChar, Lexer.SingleCharSpanIsEmpty | Lexer.InclusiveSpanCoversToken |
