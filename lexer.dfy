/** Model of the lexer: a cursor over the source text that hands out one token
    per `NextToken` call. The text is a `seq<char>`; the `Peekable<Chars>` iterator of
    `Lexer` in src/lexer.rs becomes an index `cursor` into it. */
module Lexer {
  import opened Wrappers
  import opened Primitives

  datatype TokenKind =
    | Integer(value: i16)
    | Identifier(name: string)
      // keywords
    | Def | Fun | Ret | If | Else | For
      // one-character punctuation
    | Plus | Minus | Asterisk | Slash | Percent
    | LParen | RParen | LBrace | RBrace | LBracket | RBracket
    | Semicolon | Colon | Comma
      // one character, or two when followed by `=`
    | Equal | EqualEqual | Bang | BangEqual | Less | LessEqual | Greater | GreaterEqual
      // `&` or `|` together with whatever character follows
    | And | Or
    | EOF

  /** Where a token lies: `start` and `end` are character indices, `literal` its text. */
  datatype TextSpan = TextSpan(start: nat, end: nat, literal: string)

  datatype Token = Token(kind: TokenKind, span: TextSpan)

  // ---------------------------------------------------------------------------
  // Character classes

  /** `char::is_digit(10)`, which is also `is_num_start`. */
  predicate IsDigit(c: char) {
    '0' <= c <= '9'
  }

  /** `char::is_whitespace`: the characters with the Unicode White_Space property. */
  predicate IsWhitespace(c: char) {
    || '\t' <= c <= '\r'
    || c == ' '
    || c == '\U{0085}'
    || c == '\U{00A0}'
    || c == '\U{1680}'
    || '\U{2000}' <= c <= '\U{200A}'
    || c == '\U{2028}'
    || c == '\U{2029}'
    || c == '\U{202F}'
    || c == '\U{205F}'
    || c == '\U{3000}'
  }

  /** `char::is_alphabetic` (the Unicode Alphabetic property) is a parameter `alpha`
      of the model. Within ASCII that property holds of the letters and of nothing else. */
  ghost predicate AsciiAlphabet(alpha: char -> bool) {
    forall c: char :: c <= '\U{007F}' ==> (alpha(c) <==> ('a' <= c <= 'z' || 'A' <= c <= 'Z'))
  }

  /** `is_identifier_start`, which also decides whether an identifier continues. */
  predicate IsIdentifierStart(c: char, alpha: char -> bool) {
    alpha(c) || c == '_'
  }

  function IdentifierChar(alpha: char -> bool): char -> bool {
    c => IsIdentifierStart(c, alpha)
  }

  /** The digits are exactly the ten ASCII decimal digits. */
  lemma DigitChars(c: char)
    ensures IsDigit(c) <==> c in {'0', '1', '2', '3', '4', '5', '6', '7', '8', '9'}
  {
  }

  /** Within ASCII the whitespace characters are tab, line feed, vertical tab, form
      feed, carriage return and space. No digit is whitespace, and neither is the `'\0'`
      that stands for the end of the text, so `skip_whitespace` stops there. */
  lemma WhitespaceChars(c: char)
    ensures c <= '\U{007F}' ==> (IsWhitespace(c) <==> c in {'\t', '\n', '\U{000B}', '\U{000C}', '\r', ' '})
    ensures IsWhitespace(c) ==> !IsDigit(c) && c != '\0'
  {
  }

  /** Within ASCII identifiers are made of letters and `_` only, so a digit or `'\0'`
      neither starts nor continues one: a number never begins a word. */
  lemma IdentifierChars(c: char, alpha: char -> bool)
    requires AsciiAlphabet(alpha)
    ensures c <= '\U{007F}' ==> (IsIdentifierStart(c, alpha) <==> 'a' <= c <= 'z' || 'A' <= c <= 'Z' || c == '_')
    ensures IsDigit(c) || c == '\0' ==> !IsIdentifierStart(c, alpha)
  {
  }

  predicate AllDigits(s: string) {
    forall k :: 0 <= k < |s| ==> IsDigit(s[k])
  }

  // ---------------------------------------------------------------------------
  // Maximal runs and decimal values

  /** The end of the maximal run of characters satisfying `p` that begins at index `i`. */
  function RunEnd(s: string, i: nat, p: char -> bool): (e: nat)
    requires i <= |s|
    ensures i <= e <= |s|
    ensures forall k :: i <= k < e ==> p(s[k])
    ensures e == |s| || !p(s[e])
    decreases |s| - i
  {
    if i < |s| && p(s[i]) then RunEnd(s, i + 1, p) else i
  }

  /** The value of a string of decimal digits, most significant first (leading zeros allowed). */
  function DigitsValue(s: string): nat
    requires AllDigits(s)
  {
    if s == [] then 0 else 10 * DigitsValue(s[..|s| - 1]) + (s[|s| - 1] as int - '0' as int)
  }

  /** `handle_number`: `parse::<i16>().unwrap()` on a run of digits. A run whose
      value exceeds 32767 makes the parse panic; callers must exclude it. */
  function HandleNumber(num: string): (kind: TokenKind)
    requires num != [] && AllDigits(num)
    requires DigitsValue(num) <= 0x7FFF
    ensures kind.Integer? && kind.value as int == DigitsValue(num)
  {
    Integer(DigitsValue(num) as i16)
  }

  // ---------------------------------------------------------------------------
  // Keywords

  predicate IsKeyword(k: TokenKind) {
    k.Def? || k.Fun? || k.Ret? || k.If? || k.Else? || k.For?
  }

  /** How each keyword is written in the source text. */
  function KeywordSpelling(k: TokenKind): string
    requires IsKeyword(k)
  {
    match k
    case Def => "def"
    case Fun => "fun"
    case Ret => "ret"
    case If => "if"
    case Else => "else"
    case For => "for"
  }

  /** The six words reserved as keywords. */
  const KeywordSpellings: set<string> := {"def", "fun", "ret", "if", "else", "for"}

  /** `handle_identifier`: exactly the six keyword spellings become keyword kinds;
      every other word is an `Identifier` carrying that word. */
  function HandleIdentifier(word: string): (kind: TokenKind)
    ensures kind.Identifier? <==> word !in KeywordSpellings
    ensures kind.Identifier? ==> kind.name == word
    ensures !kind.Identifier? ==> IsKeyword(kind) && KeywordSpelling(kind) == word
  {
    if word == "def" then Def
    else if word == "fun" then Fun
    else if word == "ret" then Ret
    else if word == "if" then If
    else if word == "else" then Else
    else if word == "for" then For
    else Identifier(word)
  }

  /** Reading a keyword's spelling gives the keyword back. */
  lemma KeywordRoundTrip(k: TokenKind)
    requires IsKeyword(k)
    ensures HandleIdentifier(KeywordSpelling(k)) == k
  {
  }

  // ---------------------------------------------------------------------------
  // Punctuation tables

  /** The one-character tokens that need no lookahead. */
  function PunctuationKind(c: char): Option<TokenKind> {
    match c
    case '+' => Some(Plus)
    case '-' => Some(Minus)
    case '*' => Some(Asterisk)
    case '/' => Some(Slash)
    case '%' => Some(Percent)
    case '(' => Some(LParen)
    case ')' => Some(RParen)
    case '{' => Some(LBrace)
    case '}' => Some(RBrace)
    case '[' => Some(LBracket)
    case ']' => Some(RBracket)
    case ';' => Some(Semicolon)
    case ':' => Some(Colon)
    case ',' => Some(Comma)
    case _ => None
  }

  /** The kind of `=`, `!`, `<`, `>` on their own. */
  function SingleKind(c: char): TokenKind
    requires IsComparisonStart(c)
  {
    if c == '=' then Equal else if c == '!' then Bang else if c == '<' then Less else Greater
  }

  /** The kind of `=`, `!`, `<`, `>` followed by `=`. */
  function DoubleKind(c: char): TokenKind
    requires IsComparisonStart(c)
  {
    if c == '=' then EqualEqual else if c == '!' then BangEqual else if c == '<' then LessEqual else GreaterEqual
  }

  // ---------------------------------------------------------------------------
  // The specification of one `next_token` call
  //
  // The lexer's whole state is determined by `read_position` (see Lexer.Valid), so a
  // call is specified by a function from the text and the old `read_position` to the
  // token and the new `read_position`.

  /** Index of the iterator into the text: `read_position`, capped at the text's end. */
  function Cursor(input: string, readPos: nat): (i: nat)
    ensures i <= |input|
  {
    if readPos < |input| then readPos else |input|
  }

  /** What `consume_char` stores in `ch` when it reads index `i`: `'\0'` past the end. */
  function CharAt(input: string, i: nat): char {
    if i < |input| then input[i] else '\0'
  }

  /** Index of the first character that `skip_whitespace` leaves unread. */
  function TokenStart(input: string, readPos: nat): nat
  {
    RunEnd(input, Cursor(input, readPos), IsWhitespace)
  }

  /** The run of digits at index `p` has a value that fits in an `i16`. */
  predicate DigitRunFits(input: string, p: nat)
    requires p <= |input|
  {
    var e := RunEnd(input, p, IsDigit);
    AllDigits(input[p..e]) && DigitsValue(input[p..e]) <= 0x7FFF
  }

  /** The digit run that the next token would read, if any, fits in an `i16`. */
  predicate NumberFits(input: string, readPos: nat)
  {
    var p := TokenStart(input, readPos);
    p < |input| && IsDigit(input[p]) ==> DigitRunFits(input, p)
  }

  /** The number token read when a digit is at index `p`, and the new `read_position`. */
  function ScanNumber(input: string, p: nat): (r: (Token, nat))
    requires p < |input| && IsDigit(input[p]) && DigitRunFits(input, p)
    ensures p < r.1 <= |input| && (r.1 == |input| || !IsDigit(input[r.1]))
    ensures r.0.span == TextSpan(p, r.1 - 1, input[p..r.1]) && AllDigits(r.0.span.literal)
    ensures r.0.kind.Integer? && r.0.kind.value as int == DigitsValue(r.0.span.literal)
  {
    var e := RunEnd(input, p, IsDigit);
    (Token(HandleNumber(input[p..e]), TextSpan(p, e - 1, input[p..e])), e)
  }

  /** The keyword or identifier token read when a letter or `_` is at index `p`. */
  function ScanWord(input: string, p: nat, alpha: char -> bool): (r: (Token, nat))
    requires p < |input| && IsIdentifierStart(input[p], alpha)
    ensures p < r.1 <= |input| && (r.1 == |input| || !IsIdentifierStart(input[r.1], alpha))
    ensures forall k :: p <= k < r.1 ==> IsIdentifierStart(input[k], alpha)
    ensures r.0.span == TextSpan(p, r.1 - 1, input[p..r.1])
    ensures r.0.kind == HandleIdentifier(r.0.span.literal)
  {
    var e := RunEnd(input, p, IdentifierChar(alpha));
    (Token(HandleIdentifier(input[p..e]), TextSpan(p, e - 1, input[p..e])), e)
  }

  predicate IsComparisonStart(c: char) {
    c == '=' || c == '!' || c == '<' || c == '>'
  }

  /** The characters that begin a punctuation token. */
  predicate StartsSymbol(c: char) {
    PunctuationKind(c).Some? || IsComparisonStart(c) || c == '&' || c == '|'
  }

  /** The characters that begin a token other than `EOF`. */
  predicate StartsToken(c: char, alpha: char -> bool) {
    IsDigit(c) || IsIdentifierStart(c, alpha) || StartsSymbol(c)
  }

  /** The token read when `ch`, at index `p` and `position` `start`, is neither a digit
      nor a letter: punctuation, or `EOF`. */
  function ScanSymbol(input: string, p: nat, start: nat): (r: (Token, nat))
    requires p <= |input| && (p < |input| ==> start == p)
    ensures r.0.span.start == start && start < r.1 && r.0.span.end == r.1 - 1
    ensures var c := CharAt(input, p);
            PunctuationKind(c).Some? ==> r == (Token(PunctuationKind(c).value, TextSpan(p, p, [c])), p + 1)
    ensures var c := CharAt(input, p);
            IsComparisonStart(c) ==>
              if p + 1 < |input| && input[p + 1] == '=' then
                r == (Token(DoubleKind(c), TextSpan(p, p + 1, "=")), p + 2)
              else
                r == (Token(SingleKind(c), TextSpan(p, p, [c])), p + 1)
    ensures var c := CharAt(input, p);
            c == '&' || c == '|' ==>
              r == (Token(if c == '&' then And else Or, TextSpan(p, p + 1, [CharAt(input, p + 1)])), p + 2)
    ensures r.0.kind == EOF <==> !StartsSymbol(CharAt(input, p))
    ensures r.0.kind == EOF ==> r == (Token(EOF, TextSpan(start, start, [CharAt(input, p)])), start + 1)
  {
    var c := CharAt(input, p);
    if PunctuationKind(c).Some? then
      (Token(PunctuationKind(c).value, TextSpan(start, start, [c])), start + 1)
    else if IsComparisonStart(c) then
      if p + 1 < |input| && input[p + 1] == '=' then
        (Token(DoubleKind(c), TextSpan(start, start + 1, "=")), start + 2)
      else
        (Token(SingleKind(c), TextSpan(start, start, [c])), start + 1)
    else if c == '&' || c == '|' then
      (Token(if c == '&' then And else Or, TextSpan(start, start + 1, [CharAt(input, p + 1)])), start + 2)
    else
      (Token(EOF, TextSpan(start, start, [c])), start + 1)
  }

  /** One `next_token` call on `input` when `read_position` is `readPos`: the token and
      the new `read_position`. Whitespace is skipped first; what follows decides the
      token, digits before letters before punctuation. */
  function Scan(input: string, readPos: nat, alpha: char -> bool): (r: (Token, nat))
    requires AsciiAlphabet(alpha)
    requires NumberFits(input, readPos)
    // The span runs from the token's first character to the last one consumed, inclusive.
    ensures var p := TokenStart(input, readPos);
            var start := if readPos < p then p else readPos;
            && (p < |input| ==> start == p)
            && r.0.span.start == start && start < r.1 && r.0.span.end == r.1 - 1
    ensures var p := TokenStart(input, readPos);
            p < |input| && IsDigit(input[p]) ==> r == ScanNumber(input, p)
    ensures var p := TokenStart(input, readPos);
            p < |input| && IsIdentifierStart(input[p], alpha) ==> r == ScanWord(input, p, alpha)
    ensures var p := TokenStart(input, readPos);
            var start := if readPos < p then p else readPos;
            p == |input| || !(IsDigit(input[p]) || IsIdentifierStart(input[p], alpha)) ==>
              r == ScanSymbol(input, p, start)
    // The end of the text and every unrecognised character give `EOF`; at the end, for ever.
    ensures var p := TokenStart(input, readPos);
            && (r.0.kind == EOF <==> p == |input| || !StartsToken(input[p], alpha))
            && (p == |input| ==> TokenStart(input, r.1) == |input|)
  {
    var p := TokenStart(input, readPos);
    var start := if readPos < p then p else readPos;
    var c := CharAt(input, p);
    if IsDigit(c) then ScanNumber(input, p)
    else if IsIdentifierStart(c, alpha) then ScanWord(input, p, alpha)
    else ScanSymbol(input, p, start)
  }

  // ---------------------------------------------------------------------------
  // Spans

  /** `TextSpan::_length`, as written: `end - start` (a `usize` subtraction, so `end`
      must not be below `start`). */
  function Length(span: TextSpan): (n: nat)
    requires span.start <= span.end
    ensures span.start + n == span.end
  {
    span.end - span.start
  }

  /** `TextSpan::_contains`, as written: `start <= pos < end`. The positions it holds
      of are the `Length(span)` ones from `start` on, so a span with `start == end`
      contains nothing. */
  predicate Contains(span: TextSpan, pos: nat): (b: bool)
    ensures span.start <= span.end ==> (b <==> span.start <= pos < span.start + Length(span))
    ensures b ==> span.start < span.end
  {
    span.start <= pos < span.end
  }

  /** The spans `next_token` builds have an inclusive `end`, so `Length` falls one
      short of the characters the token covers and `Contains` misses its last one. */
  lemma LengthAndContainsMissLastChar(input: string, readPos: nat, alpha: char -> bool)
    requires AsciiAlphabet(alpha) && NumberFits(input, readPos)
    ensures var (token, next) := Scan(input, readPos, alpha);
            && Length(token.span) == next - token.span.start - 1
            && !Contains(token.span, token.span.end)
  {
  }

  /** A one-character token: `Length` is 0 and `Contains` holds of no position. */
  lemma SingleCharSpanIsEmpty(alpha: char -> bool)
    requires AsciiAlphabet(alpha)
    ensures var (token, _) := Scan("+", 0, alpha);
            && token == Token(Plus, TextSpan(0, 0, "+"))
            && Length(token.span) == 0
            && forall pos :: !Contains(token.span, pos)
  {
    assert TokenStart("+", 0) == 0;
  }

  /** Length of a span whose `end` is inclusive, as `next_token` builds them. */
  function InclusiveLength(span: TextSpan): (n: nat)
    requires span.start <= span.end
    ensures n > 0 && span.start + n == span.end + 1
  {
    span.end - span.start + 1
  }

  /** Membership in a span whose `end` is inclusive: the `InclusiveLength(span)`
      positions from `start` on, so `start` itself whenever the span is well formed. */
  predicate InclusiveContains(span: TextSpan, pos: nat): (b: bool)
    ensures span.start <= span.end ==> (b <==> span.start <= pos < span.start + InclusiveLength(span))
    ensures b ==> span.start <= span.end
  {
    span.start <= pos <= span.end
  }

  /** With the inclusive reading, a token's span covers exactly the positions the
      call consumed, and for numbers and identifiers its length is that of its text. */
  lemma InclusiveSpanCoversToken(input: string, readPos: nat, alpha: char -> bool, pos: nat)
    requires AsciiAlphabet(alpha) && NumberFits(input, readPos)
    ensures var (token, next) := Scan(input, readPos, alpha);
            && token.span.start <= token.span.end
            && InclusiveLength(token.span) == next - token.span.start
            && (InclusiveContains(token.span, pos) <==> token.span.start <= pos < next)
            && (token.kind.Integer? || token.kind.Identifier? || IsKeyword(token.kind) ==>
                  InclusiveLength(token.span) == |token.span.literal|)
  {
    var p := TokenStart(input, readPos);
    var c := CharAt(input, p);
    if IsDigit(c) || IsIdentifierStart(c, alpha) {
      assert p < |input|;
    }
  }

  // ---------------------------------------------------------------------------
  // The lexer

  /** `Scan` at anything else: punctuation or `EOF`, where `start` is the new `position`. */
  lemma ScanAtSymbol(input: string, readPos: nat, alpha: char -> bool, start: nat)
    requires AsciiAlphabet(alpha) && NumberFits(input, readPos)
    requires var p := TokenStart(input, readPos);
             && start == (if readPos < p then p else readPos)
             && !IsDigit(CharAt(input, p)) && !IsIdentifierStart(CharAt(input, p), alpha)
    ensures var p := TokenStart(input, readPos);
            && p == Cursor(input, start)
            && Scan(input, readPos, alpha) == ScanSymbol(input, p, start)
  {
  }

  /** A slice is its first character followed by the rest. */
  lemma SplitFirst(s: string, i: nat, j: nat)
    requires i < j <= |s|
    ensures s[i..j] == [s[i]] + s[i + 1..j]
  {
  }

  class Lexer {
    /** The whole source text. */
    const input: string
    /** Unicode's Alphabetic property, on which identifiers depend. */
    const isAlphabetic: char -> bool
    /** How far the character iterator over `input` has advanced. */
    var cursor: nat
    /** Index of `ch`, the character consumed last. */
    var position: nat
    /** One past `position`; keeps growing after the text is exhausted. */
    var readPosition: nat
    /** The character consumed last, `'\0'` before the first and after the last. */
    var ch: char

    /** The iterator, `position` and `ch` all follow from `readPosition`. */
    ghost predicate Valid()
      reads this
    {
      && AsciiAlphabet(isAlphabetic)
      && cursor == Cursor(input, readPosition)
      && (readPosition == 0 ==> position == 0 && ch == '\0')
      && (readPosition > 0 ==> position == readPosition - 1 && ch == CharAt(input, position))
    }

    /** `Lexer::new`. */
    constructor (input: string, isAlphabetic: char -> bool)
      requires AsciiAlphabet(isAlphabetic)
      ensures Valid()
      ensures this.input == input && this.isAlphabetic == isAlphabetic
      ensures cursor == 0 && position == 0 && readPosition == 0 && ch == '\0'
    {
      this.input := input;
      this.isAlphabetic := isAlphabetic;
      cursor, position, readPosition, ch := 0, 0, 0, '\0';
    }

    /** `peek`: the next unread character, if any. In a valid state that is the
        character at `read_position`, the one the next `consume_char` stores in `ch`. */
    function Peek(): (c: Option<char>)
      reads this
      ensures Valid() ==> (c.Some? <==> readPosition < |input|)
      ensures Valid() ==> CharAt(input, readPosition) == if c.Some? then c.value else '\0'
    {
      if cursor < |input| then Some(input[cursor]) else None
    }

    /** `consume_char`: `ch` becomes the next character (`'\0'` once the text is
        exhausted) and `position` its index. */
    method ConsumeChar()
      requires Valid()
      modifies this
      ensures Valid()
      ensures position == old(readPosition) && readPosition == position + 1
      ensures ch == old(if Peek().Some? then Peek().value else '\0')
      ensures cursor == old(if cursor < |input| then cursor + 1 else cursor)
    {
      var next := Peek();
      ch := if next.Some? then next.value else '\0';
      if cursor < |input| {
        cursor := cursor + 1;
      }
      position := readPosition;
      readPosition := readPosition + 1;
    }

    /** `skip_whitespace`: consumes the maximal run of whitespace at the cursor. */
    method SkipWhitespace()
      requires Valid()
      modifies this
      ensures Valid()
      ensures cursor == RunEnd(input, old(cursor), IsWhitespace)
      ensures readPosition == old(readPosition) + (cursor - old(cursor))
      ensures cursor == old(cursor) ==> position == old(position) && ch == old(ch)
    {
      while Peek().Some?
        invariant Valid()
        invariant old(cursor) <= cursor <= |input|
        invariant RunEnd(input, cursor, IsWhitespace) == RunEnd(input, old(cursor), IsWhitespace)
        invariant readPosition == old(readPosition) + (cursor - old(cursor))
        invariant cursor == old(cursor) ==> position == old(position) && ch == old(ch)
        decreases |input| - cursor
      {
        if IsWhitespace(Peek().value) {
          ConsumeChar();
        } else {
          break;
        }
      }
    }

    /** `read_identifier`: `ch` followed by the maximal run of letters and `_` after it. */
    method ReadIdentifier() returns (word: string)
      requires Valid()
      modifies this
      ensures Valid()
      ensures cursor == RunEnd(input, old(cursor), IdentifierChar(isAlphabetic))
      ensures readPosition == old(readPosition) + (cursor - old(cursor))
      ensures word == [old(ch)] + input[old(cursor)..cursor]
    {
      word := [ch];
      while Peek().Some?
        invariant Valid()
        invariant old(cursor) <= cursor <= |input|
        invariant RunEnd(input, cursor, IdentifierChar(isAlphabetic))
               == RunEnd(input, old(cursor), IdentifierChar(isAlphabetic))
        invariant readPosition == old(readPosition) + (cursor - old(cursor))
        invariant word == [old(ch)] + input[old(cursor)..cursor]
        decreases |input| - cursor
      {
        var c := Peek().value;
        if IsIdentifierStart(c, isAlphabetic) {
          word := word + [c];
          ConsumeChar();
        } else {
          break;
        }
      }
    }

    /** `read_number`: `ch` followed by the maximal run of digits after it. */
    method ReadNumber() returns (num: string)
      requires Valid()
      modifies this
      ensures Valid()
      ensures cursor == RunEnd(input, old(cursor), IsDigit)
      ensures readPosition == old(readPosition) + (cursor - old(cursor))
      ensures num == [old(ch)] + input[old(cursor)..cursor]
    {
      num := [ch];
      while Peek().Some?
        invariant Valid()
        invariant old(cursor) <= cursor <= |input|
        invariant RunEnd(input, cursor, IsDigit) == RunEnd(input, old(cursor), IsDigit)
        invariant readPosition == old(readPosition) + (cursor - old(cursor))
        invariant num == [old(ch)] + input[old(cursor)..cursor]
        decreases |input| - cursor
      {
        var c := Peek().value;
        if IsDigit(c) {
          num := num + [c];
          ConsumeChar();
        } else {
          break;
        }
      }
    }

    /** `handle_double_char`: `double` when the next character is `pun`, which is then
        consumed; otherwise `single`, consuming nothing. */
    method HandleDoubleChar(pun: char, single: TokenKind, double: TokenKind) returns (kind: TokenKind)
      requires Valid()
      modifies this
      ensures Valid()
      ensures old(Peek()) == Some(pun) ==> kind == double && readPosition == old(readPosition) + 1
      ensures old(Peek()) != Some(pun) ==> kind == single && readPosition == old(readPosition)
      ensures old(Peek()) != Some(pun) ==> position == old(position) && ch == old(ch) && cursor == old(cursor)
    {
      var next := Peek();
      if next.Some? && next.value == pun {
        ConsumeChar();
        kind := double;
      } else {
        kind := single;
      }
    }

    /** The `match self.ch` of `next_token` for a `ch` that is neither a digit nor a
        letter: punctuation, consuming a second character where the token needs one. */
    method MatchSymbol() returns (kind: TokenKind)
      requires Valid() && readPosition > 0
      modifies this
      ensures Valid()
      ensures (Token(kind, TextSpan(old(position), position, [ch])), readPosition)
         == ScanSymbol(input, Cursor(input, old(position)), old(position))
    {
      ghost var p := Cursor(input, position);
      assert CharAt(input, p) == ch && (p < |input| ==> cursor == p + 1);
      match ch {
        case '+' => kind := Plus;
        case '-' => kind := Minus;
        case '*' => kind := Asterisk;
        case '/' => kind := Slash;
        case '%' => kind := Percent;
        case '(' => kind := LParen;
        case ')' => kind := RParen;
        case '{' => kind := LBrace;
        case '}' => kind := RBrace;
        case '[' => kind := LBracket;
        case ']' => kind := RBracket;
        case ';' => kind := Semicolon;
        case ':' => kind := Colon;
        case ',' => kind := Comma;
        case '=' => kind := HandleDoubleChar('=', Equal, EqualEqual);
        case '!' => kind := HandleDoubleChar('=', Bang, BangEqual);
        case '<' => kind := HandleDoubleChar('=', Less, LessEqual);
        case '>' => kind := HandleDoubleChar('=', Greater, GreaterEqual);
        case '&' =>
          ConsumeChar();
          kind := And;
        case '|' =>
          ConsumeChar();
          kind := Or;
        case _ => kind := EOF;
      }
    }

    /** The number arm of `next_token`: `read_number`, then `handle_number`, with the
        span from the digit in `ch` to the last digit consumed. */
    method LexNumber() returns (token: Token)
      requires Valid() && 0 < readPosition && position < |input| && IsDigit(ch)
      requires DigitRunFits(input, position)
      modifies this
      ensures Valid()
      ensures (token, readPosition) == ScanNumber(input, old(position))
    {
      var startPos := position;
      var num := ReadNumber();
      assert cursor == RunEnd(input, startPos, IsDigit);
      SplitFirst(input, startPos, cursor);
      assert num == input[startPos..cursor] && readPosition == cursor;
      var kind := HandleNumber(num);
      token := Token(kind, TextSpan(startPos, position, num));
    }

    /** The identifier arm of `next_token`: `read_identifier`, then `handle_identifier`. */
    method LexWord() returns (token: Token)
      requires Valid() && 0 < readPosition && position < |input| && IsIdentifierStart(ch, isAlphabetic)
      modifies this
      ensures Valid()
      ensures (token, readPosition) == ScanWord(input, old(position), isAlphabetic)
    {
      var startPos := position;
      var word := ReadIdentifier();
      assert cursor == RunEnd(input, startPos, IdentifierChar(isAlphabetic)) by {
        assert IdentifierChar(isAlphabetic)(input[startPos]);
      }
      SplitFirst(input, startPos, cursor);
      var kind := HandleIdentifier(word);
      token := Token(kind, TextSpan(startPos, position, word));
    }

    /** `next_token`: always a token, as `Scan` describes it. */
    method NextToken() returns (token: Option<Token>)
      requires Valid()
      requires NumberFits(input, readPosition)
      modifies this
      ensures Valid()
      ensures token == Some(Scan(input, old(readPosition), isAlphabetic).0)
      ensures readPosition == Scan(input, old(readPosition), isAlphabetic).1
    {
      ghost var readPos := readPosition;
      ghost var p := TokenStart(input, readPosition);
      SkipWhitespace();
      ConsumeChar();
      var startPos := position;
      assert CharAt(input, p) == ch && (p < |input| ==> startPos == p);

      if IsDigit(ch) {
        var t := LexNumber();
        token := Some(t);
      } else if IsIdentifierStart(ch, isAlphabetic) {
        var t := LexWord();
        token := Some(t);
      } else {
        ScanAtSymbol(input, readPos, isAlphabetic, startPos);
        var kind := MatchSymbol();
        token := Some(Token(kind, TextSpan(startPos, position, [ch])));
      }
    }
  }
}
