/**
 * The scanner of hephaestus.org/lexer.go.
 *
 * The Go scanner reads runes from a `bufio.Reader`. Here the reader is the text `input`, a cursor
 * into it and a flag telling whether the reader can step back one rune (bufio only honours
 * `UnreadRune` right after a successful `ReadRun`). `ScanAt` is the pure specification of one call
 * of `Scan`: the lexeme that starts at a cursor and the cursor after it.
 */
module Lexer {
  import opened Wrappers
  import opened Tokens

  /** The marker rune `read` returns once the reader is exhausted. */
  const EofRune: char := '\0'

  predicate IsWhitespace(ch: char) {
    ch == ' ' || ch == '\t' || ch == '\n'
  }

  predicate IsLetter(ch: char) {
    ('a' <= ch <= 'z') || ('A' <= ch <= 'Z')
  }

  predicate IsDigit(ch: char) {
    '0' <= ch <= '9'
  }

  /** The rune classes are disjoint, and none holds of the end marker, of a quote, of a comparison
      rune or of a one-rune token, so exactly one branch of `Scan` applies to each rune. */
  lemma RuneClassesDisjoint(ch: char)
    ensures !(IsWhitespace(ch) && IsLetter(ch)) && !(IsWhitespace(ch) && IsDigit(ch)) && !(IsLetter(ch) && IsDigit(ch))
    ensures ch in "\0\"=<>*,(){};+-" ==> !IsWhitespace(ch) && !IsLetter(ch) && !IsDigit(ch)
  {
  }

  /** A real NUL rune could not be told apart from the end-of-input marker: inputs hold none. */
  predicate NoNul(s: string) {
    forall i | 0 <= i < |s| :: s[i] != EofRune
  }

  datatype Position = Position(line: int, column: int, pos: int)

  datatype ScannerRes = ScannerRes(tok: TokenKind, lit: string, position: Position)

  datatype ScanError =
    | NoCharacterBefore  // `unread` with no successful `read` since the last `unread`
    | SliceOutOfRange    // the run-time panic of slicing a one-rune string buffer as [1:0]

  // ---------------------------------------------------------------- positions

  /** The number of newlines among the first `k` runes of `input`. */
  function Newlines(input: string, k: nat): nat
    requires k <= |input|
  {
    if k == 0 then 0 else Newlines(input, k - 1) + (if input[k - 1] == '\n' then 1 else 0)
  }

  /** The scanner's position once the first `k` runes of `input` have been read. */
  function PositionAt(input: string, k: nat): Position
    requires k <= |input|
  {
    Position(1 + Newlines(input, k), 1, k - 1)
  }

  /** The position update one successful `read` of `ch` performs. */
  function Advance(p: Position, ch: char): Position {
    if ch == '\n' then Position(p.line + 1, 1, p.pos + 1) else p.(pos := p.pos + 1)
  }

  /** Reading the rune at `k` moves the position of the first `k` runes to that of the first
      `k + 1`: one offset further, and one line further exactly on a newline. */
  lemma PositionAdvances(input: string, k: nat)
    requires k < |input|
    ensures PositionAt(input, k + 1) == Advance(PositionAt(input, k), input[k])
    ensures PositionAt(input, k + 1).line == PositionAt(input, k).line + (if input[k] == '\n' then 1 else 0)
  {
  }

  // ---------------------------------------------------------------- keywords

  predicate IsKeyword(kind: TokenKind) {
    kind in {Void, Int, String, Boolean, True, False}
  }

  function KeywordText(kind: TokenKind): string
    requires IsKeyword(kind)
  {
    match kind
    case Void => "void"
    case Int => "int"
    case String => "string"
    case Boolean => "boolean"
    case True => "true"
    case False => "false"
  }

  /** The kind of a scanned word: the keyword it spells exactly, or Ident. */
  function KeywordOrIdent(word: string): (kind: TokenKind)
    ensures kind == Ident || (IsKeyword(kind) && KeywordText(kind) == word)
    ensures kind == Ident ==> forall kw | IsKeyword(kw) :: KeywordText(kw) != word
  {
    if word == "void" then Void
    else if word == "int" then Int
    else if word == "string" then String
    else if word == "boolean" then Boolean
    else if word == "true" then True
    else if word == "false" then False
    else Ident
  }

  // ---------------------------------------------------------------- maximal runs

  /** The three maximal-munch loops: whitespace, identifier tail, digits. */
  datatype RunKind = Blank | Word | Digits

  predicate InRun(kind: RunKind, ch: char) {
    match kind
    case Blank => IsWhitespace(ch)
    case Word => IsLetter(ch) || IsDigit(ch) || ch == '_'
    case Digits => IsDigit(ch)
  }

  /** The end of the longest run of `kind` runes that starts at `k`. */
  function RunEnd(input: string, k: nat, kind: RunKind): (end: nat)
    requires k <= |input|
    ensures k <= end <= |input|
    ensures forall i | k <= i < end :: InRun(kind, input[i])
    ensures end == |input| || !InRun(kind, input[end])
    decreases |input| - k
  {
    if k == |input| || !InRun(kind, input[k]) then k else RunEnd(input, k + 1, kind)
  }

  // ---------------------------------------------------------------- string literals

  /** The index of the first '"' at or after `k`, or the end of the input. */
  function QuoteEnd(input: string, k: nat): (end: nat)
    requires k <= |input|
    ensures k <= end <= |input|
    ensures forall i | k <= i < end :: input[i] != '"'
    ensures end == |input| || input[end] == '"'
    decreases |input| - k
  {
    if k == |input| || input[k] == '"' then k else QuoteEnd(input, k + 1)
  }

  /** Where the string loop started at `k` leaves the cursor: after the closing quote, or at the end. */
  function StringNext(input: string, k: nat): nat
    requires k < |input|
  {
    var q := QuoteEnd(input, k + 1); if q < |input| then q + 1 else |input|
  }

  /** One lexeme: its kind, its literal and the cursor after it. */
  datatype Lexeme = Lexeme(tok: TokenKind, lit: string, next: nat)

  /** What scanString yields when started at `k`: the buffer (first rune, the runes up to and
      including the closing quote) with its first and last rune cut off; a one-rune buffer panics. */
  function StringAt(input: string, k: nat): (r: Result<Lexeme, ScanError>)
    requires k <= |input|
    ensures r.Failure? <==> k + 1 >= |input|
    ensures r.Failure? ==> r.error == SliceOutOfRange
    ensures r.Success? ==>
      && r.value.tok == StringLiteral && r.value.next == StringNext(input, k)
      && r.value.lit == input[k + 1..r.value.next - 1]
      && (forall i | k < i < r.value.next - 1 :: input[i] != '"')
  {
    if k == |input| then Failure(SliceOutOfRange)
    else
      var q := QuoteEnd(input, k + 1);
      if q < |input| then Success(Lexeme(StringLiteral, input[k + 1..q], q + 1))
      else if k + 1 == |input| then Failure(SliceOutOfRange)
      else Success(Lexeme(StringLiteral, input[k + 1..|input| - 1], |input|))
  }

  // ---------------------------------------------------------------- one token

  /** The one-rune tokens; any other rune is Illegal. */
  function SingleRuneKind(ch: char): (kind: TokenKind)
    ensures kind == Illegal <==> ch !in "*,(){};+-"
    ensures kind != Eof && kind != Ws && kind != Ident && kind != Number && kind != StringLiteral
  {
    match ch
    case '*' => Asterisk
    case ',' => Comma
    case '(' => OpenParenthesis
    case ')' => CloseParenthesis
    case '{' => OpenCurlyBracket
    case '}' => CloseCurlyBracket
    case ';' => Semicolon
    case '+' => Add
    case '-' => Sub
    case _ => Illegal
  }

  /** `=`, `<`, `>`: the two-rune form when the next rune is '=', else the one-rune form. */
  function Lookahead(input: string, k: nat, one: TokenKind, two: TokenKind): (r: Lexeme)
    requires k < |input|
    ensures k < r.next <= |input| && r.lit == input[k..r.next]
    ensures r.next == k + 2 <==> k + 1 < |input| && input[k + 1] == '='
    ensures r.tok == (if r.next == k + 2 then two else one)
  {
    if k + 1 < |input| && input[k + 1] == '=' then Lexeme(two, [input[k], '='], k + 2)
    else Lexeme(one, [input[k]], k + 1)
  }

  /** The lookahead of `=`, `<` or `>` found the end of the input; the scanner then rolls its
      position back to before the operator while the reader stays at the end. */
  predicate RollsBack(input: string, k: nat) {
    k + 1 == |input| && (input[k] == '=' || input[k] == '<' || input[k] == '>')
  }

  /** One call of `Scan` with the cursor at `k`. */
  function ScanAt(input: string, k: nat): (r: Result<Lexeme, ScanError>)
    requires NoNul(input) && k <= |input|
    ensures r.Success? ==> k <= r.value.next <= |input|
    ensures r.Success? ==> (r.value.tok == Eof <==> k == |input|)
    ensures r.Success? && k < |input| ==> k < r.value.next
    ensures r.Failure? <==> k + 1 == |input| && input[k] == '"'
    ensures r.Failure? ==> r.error == SliceOutOfRange
    ensures r.Success? && r.value.tok != StringLiteral ==> r.value.lit == input[k..r.value.next]
  {
    if k == |input| then Success(Lexeme(Eof, "", k))
    else
      var ch := input[k];
      if IsWhitespace(ch) then
        var e := RunEnd(input, k + 1, Blank);
        Success(Lexeme(Ws, input[k..e], e))
      else if IsLetter(ch) then
        var e := RunEnd(input, k + 1, Word);
        Success(Lexeme(KeywordOrIdent(input[k..e]), input[k..e], e))
      else if IsDigit(ch) then
        var e := RunEnd(input, k + 1, Digits);
        Success(Lexeme(Number, input[k..e], e))
      else if ch == '"' then StringAt(input, k)
      else if ch == '=' then Success(Lookahead(input, k, Equals, Equals2))
      else if ch == '<' then Success(Lookahead(input, k, Lesser, LesserOrEquals))
      else if ch == '>' then Success(Lookahead(input, k, Greater, GreaterOrEquals))
      else Success(Lexeme(SingleRuneKind(ch), [ch], k + 1))
  }

  /** The cursor after `Scan` started at `k`. */
  function ScanNext(input: string, k: nat): nat
    requires NoNul(input) && k <= |input|
  {
    match ScanAt(input, k)
    case Success(lx) => lx.next
    case Failure(_) => |input|
  }

  /** What `Scan` returns with the reader at `k`, before the end: ScanAt's kind and literal at the
      position of the token's first rune. */
  function TokenAt(input: string, k: nat): Result<ScannerRes, ScanError>
    requires NoNul(input) && k < |input|
  {
    match ScanAt(input, k)
    case Success(lx) => Success(ScannerRes(lx.tok, lx.lit, PositionAt(input, k + 1)))
    case Failure(e) => Failure(e)
  }

  /** A rune that starts no run, string or comparison is a token on its own: its one-rune kind (Illegal
      for a rune of no kind) with a one-rune literal. */
  lemma SingleRuneToken(input: string, k: nat)
    requires NoNul(input) && k < |input|
    requires var ch := input[k]; !IsWhitespace(ch) && !IsLetter(ch) && !IsDigit(ch) && ch !in "\"=<>"
    ensures TokenAt(input, k) == Success(ScannerRes(SingleRuneKind(input[k]), [input[k]], PositionAt(input, k + 1)))
    ensures ScanNext(input, k) == k + 1 && !RollsBack(input, k)
  {
  }

  // ---------------------------------------------------------------- the scanner object

  class Scanner {
    /** The text behind the reader. */
    const input: string
    /** The reader's cursor into `input`. */
    var cursor: nat
    /** Whether the reader can step back one rune: true exactly after a successful read. */
    var canUnreadRune: bool
    var position: Position
    var lastposition: Option<Position>

    ghost predicate Valid()
      reads this
    {
      && NoNul(input)
      && cursor <= |input|
      && match lastposition
         case Some(last) =>
           && 0 < cursor && last == PositionAt(input, cursor - 1) && position == PositionAt(input, cursor)
           && (canUnreadRune || cursor == |input|)
         case None =>
           && !canUnreadRune
           && (|| position == PositionAt(input, cursor)
               || (0 < cursor == |input| && position == PositionAt(input, cursor - 1)))
    }

    /** NewScanner. */
    constructor (input: string)
      requires NoNul(input)
      ensures Valid() && this.input == input
      ensures cursor == 0 && !canUnreadRune
      ensures position == Position(1, 1, -1) && lastposition == None
    {
      this.input := input;
      cursor := 0;
      canUnreadRune := false;
      position := Position(1, 1, -1);
      lastposition := None;
    }

    /** read: the next rune, or the end marker with nothing else changed once the reader is exhausted. */
    method Read() returns (ch: char)
      requires Valid()
      modifies this
      ensures Valid()
      ensures old(cursor) == |input| ==>
        && ch == EofRune && cursor == old(cursor) && !canUnreadRune
        && position == old(position) && lastposition == old(lastposition)
      ensures old(cursor) < |input| ==>
        && ch == input[old(cursor)] && ch != EofRune && cursor == old(cursor) + 1 && canUnreadRune
        && lastposition == Some(old(position)) && position == Advance(old(position), ch)
        && position == PositionAt(input, cursor)
    {
      if cursor == |input| {
        canUnreadRune := false;
        return EofRune;
      }
      ch := input[cursor];
      cursor := cursor + 1;
      canUnreadRune := true;
      lastposition := Some(Position(position.line, position.column, position.pos));
      position := position.(pos := position.pos + 1);
      if ch == '\n' {
        position := position.(line := position.line + 1, column := 1);
      }
    }

    /** unread: the reader steps back if it can; the position saved by the last read is restored,
        and a second unread without a read in between fails. */
    method Unread() returns (err: Outcome<ScanError>)
      requires Valid()
      modifies this
      ensures Valid()
      ensures cursor == (if old(canUnreadRune) then old(cursor) - 1 else old(cursor))
      ensures !canUnreadRune && lastposition == None
      ensures old(lastposition).Some? ==> err == Pass && position == old(lastposition).value
      ensures old(lastposition).None? ==> err == Fail(NoCharacterBefore) && position == old(position)
    {
      if canUnreadRune {
        cursor := cursor - 1;
        canUnreadRune := false;
      }
      if lastposition.None? {
        return Fail(NoCharacterBefore);
      }
      position := lastposition.value;
      lastposition := None;
      return Pass;
    }

    /** The loop shared by scanWhitespace, scanIdent and scanNumber: the current rune, then every
        following rune of `kind`; the first rune outside the run is pushed back. */
    method ReadRun(kind: RunKind) returns (r: Result<(string, Position), ScanError>)
      requires Valid() && cursor < |input|
      modifies this
      ensures Valid()
      ensures cursor == RunEnd(input, old(cursor) + 1, kind)
      ensures r == Success((input[old(cursor)..cursor], PositionAt(input, old(cursor) + 1)))
      ensures position == PositionAt(input, cursor)
    {
      ghost var start := cursor;
      var first := Read();
      var buf := [first];
      var pos := position;
      while true
        invariant Valid() && start < cursor && lastposition.Some?
        invariant buf == input[start..cursor] && pos == PositionAt(input, start + 1)
        invariant RunEnd(input, cursor, kind) == RunEnd(input, start + 1, kind)
        decreases |input| - cursor
      {
        var ch := Read();
        if ch == EofRune {
          break;
        } else if !InRun(kind, ch) {
          var err := Unread();
          match err {
            case Fail(e) => return Failure(e);
            case Pass =>
          }
          break;
        } else {
          buf := buf + [ch];
        }
      }
      return Success((buf, pos));
    }

    /** scanWhitespace: one WS token holding the whole run of blanks. */
    method ScanWhitespace() returns (r: Result<ScannerRes, ScanError>)
      requires Valid() && cursor < |input|
      modifies this
      ensures Valid()
      ensures cursor == RunEnd(input, old(cursor) + 1, Blank)
      ensures r == Success(ScannerRes(Ws, input[old(cursor)..cursor], PositionAt(input, old(cursor) + 1)))
      ensures IsWhitespace(input[old(cursor)]) ==>
        r == TokenAt(input, old(cursor)) && cursor == ScanNext(input, old(cursor)) && !RollsBack(input, old(cursor))
      ensures position == PositionAt(input, cursor)
    {
      var run := ReadRun(Blank);
      match run {
        case Failure(e) => return Failure(e);
        case Success((buf, pos)) => return Success(ScannerRes(Ws, buf, pos));
      }
    }

    /** scanIdent: the whole run of letters, digits and '_', classified as keyword or Ident. */
    method ScanIdent() returns (r: Result<ScannerRes, ScanError>)
      requires Valid() && cursor < |input|
      modifies this
      ensures Valid()
      ensures cursor == RunEnd(input, old(cursor) + 1, Word)
      ensures var word := input[old(cursor)..cursor];
        r == Success(ScannerRes(KeywordOrIdent(word), word, PositionAt(input, old(cursor) + 1)))
      ensures IsLetter(input[old(cursor)]) ==>
        r == TokenAt(input, old(cursor)) && cursor == ScanNext(input, old(cursor)) && !RollsBack(input, old(cursor))
      ensures position == PositionAt(input, cursor)
    {
      var run := ReadRun(Word);
      match run {
        case Failure(e) => return Failure(e);
        case Success((buf, pos)) => return Success(ScannerRes(KeywordOrIdent(buf), buf, pos));
      }
    }

    /** scanNumber: the whole run of digits as one NUMBER token. */
    method ScanNumber() returns (r: Result<ScannerRes, ScanError>)
      requires Valid() && cursor < |input|
      modifies this
      ensures Valid()
      ensures cursor == RunEnd(input, old(cursor) + 1, Digits)
      ensures r == Success(ScannerRes(Number, input[old(cursor)..cursor], PositionAt(input, old(cursor) + 1)))
      ensures IsDigit(input[old(cursor)]) ==>
        r == TokenAt(input, old(cursor)) && cursor == ScanNext(input, old(cursor)) && !RollsBack(input, old(cursor))
      ensures position == PositionAt(input, cursor)
    {
      var run := ReadRun(Digits);
      match run {
        case Failure(e) => return Failure(e);
        case Success((buf, pos)) => return Success(ScannerRes(Number, buf, pos));
      }
    }

    /** The loop of scanString: the current rune, then every rune up to and including the next
        '"', or up to the end of the input. */
    method ReadQuoted() returns (buf: string, pos: Position)
      requires Valid() && cursor < |input|
      modifies this
      ensures Valid()
      ensures cursor == StringNext(input, old(cursor))
      ensures buf == input[old(cursor)..cursor] && pos == PositionAt(input, old(cursor) + 1)
      ensures position == PositionAt(input, cursor)
    {
      ghost var start := cursor;
      var first := Read();
      buf := [first];
      pos := position;
      while true
        invariant Valid() && start < cursor && lastposition.Some?
        invariant buf == input[start..cursor] && pos == PositionAt(input, start + 1)
        invariant QuoteEnd(input, cursor) == QuoteEnd(input, start + 1)
        decreases |input| - cursor
      {
        var ch := Read();
        if ch == EofRune {
          break;
        } else if ch == '"' {
          buf := buf + [ch];
          break;
        } else {
          buf := buf + [ch];
        }
      }
    }

    /** scanString: the runes after the current one up to the next '"' or the end of the input,
        as the loop's buffer with its first and last rune cut off. */
    method ScanString() returns (r: Result<ScannerRes, ScanError>)
      requires Valid() && cursor < |input|
      modifies this
      ensures Valid()
      ensures cursor == StringNext(input, old(cursor))
      ensures r == match StringAt(input, old(cursor))
                   case Success(lx) => Success(ScannerRes(StringLiteral, lx.lit, PositionAt(input, old(cursor) + 1)))
                   case Failure(e) => Failure(e)
      ensures input[old(cursor)] == '"' ==>
        r == TokenAt(input, old(cursor)) && cursor == ScanNext(input, old(cursor)) && !RollsBack(input, old(cursor))
      ensures position == PositionAt(input, cursor)
    {
      ghost var start := cursor;
      var buf, pos := ReadQuoted();
      if |buf| < 2 {
        return Failure(SliceOutOfRange);
      }
      assert buf[1..|buf| - 1] == input[start + 1..cursor - 1];
      return Success(ScannerRes(StringLiteral, buf[1..|buf| - 1], pos));
    }

    /** The lookahead after the operator `op` (the rune just read): the two-rune token when the next
        rune is '=', otherwise the one-rune token, with the lookahead pushed back. */
    method ScanLookahead(op: char, one: TokenKind, two: TokenKind, pos: Position)
      returns (r: Result<ScannerRes, ScanError>)
      requires Valid() && 0 < cursor && input[cursor - 1] == op && lastposition.Some?
      requires || (op == '=' && one == Equals && two == Equals2)
               || (op == '<' && one == Lesser && two == LesserOrEquals)
               || (op == '>' && one == Greater && two == GreaterOrEquals)
      requires pos == PositionAt(input, cursor)
      modifies this
      ensures Valid()
      ensures r == TokenAt(input, old(cursor) - 1) && cursor == ScanNext(input, old(cursor) - 1)
      ensures position == (if RollsBack(input, old(cursor) - 1) then PositionAt(input, old(cursor) - 1)
                           else PositionAt(input, cursor))
    {
      var next := Read();
      if next == '=' {
        return Success(ScannerRes(two, [op, '='], pos));
      }
      var err := Unread();
      match err {
        case Fail(e) => return Failure(e);
        case Pass => return Success(ScannerRes(one, [op], pos));
      }
    }

    /** Scan: the next token, its literal and the position of its first rune. */
    method Scan() returns (r: Result<ScannerRes, ScanError>)
      requires Valid()
      modifies this
      ensures Valid()
      ensures old(cursor) == |input| ==>
        && r == Success(ScannerRes(Eof, "", old(position)))
        && cursor == old(cursor) && position == old(position) && lastposition == old(lastposition)
      ensures old(cursor) < |input| ==>
        && r == TokenAt(input, old(cursor))
        && cursor == ScanNext(input, old(cursor))
        && position == (if RollsBack(input, old(cursor)) then PositionAt(input, old(cursor))
                        else PositionAt(input, cursor))
    {
      var ch := Read();
      var pos := position;
      if IsWhitespace(ch) {
        var err := Unread();
        match err {
          case Fail(e) => return Failure(e);
          case Pass =>
        }
        r := ScanWhitespace();
        return;
      } else if IsLetter(ch) {
        var err := Unread();
        match err {
          case Fail(e) => return Failure(e);
          case Pass =>
        }
        r := ScanIdent();
        return;
      } else if IsDigit(ch) {
        var err := Unread();
        match err {
          case Fail(e) => return Failure(e);
          case Pass =>
        }
        r := ScanNumber();
        return;
      } else if ch == '"' {
        var err := Unread();
        match err {
          case Fail(e) => return Failure(e);
          case Pass =>
        }
        r := ScanString();
        return;
      }

      if ch == EofRune {
        return Success(ScannerRes(Eof, "", pos));
      } else if ch == '=' {
        r := ScanLookahead('=', Equals, Equals2, pos);
        return;
      } else if ch == '<' {
        r := ScanLookahead('<', Lesser, LesserOrEquals, pos);
        return;
      } else if ch == '>' {
        r := ScanLookahead('>', Greater, GreaterOrEquals, pos);
        return;
      }
      SingleRuneToken(input, cursor - 1);
      return Success(ScannerRes(SingleRuneKind(ch), [ch], pos));
    }
  }

  // ---------------------------------------------------------------- properties of one scan

  /** A whitespace rune starts one WS token whose literal is the whole maximal run of blanks;
      the rune after it, if any, is not a blank. */
  lemma WhitespaceToken(input: string, k: nat)
    requires NoNul(input) && k < |input| && IsWhitespace(input[k])
    ensures ScanAt(input, k).Success?
    ensures var lx := ScanAt(input, k).value;
      && lx.tok == Ws && lx.lit == input[k..lx.next] && k < lx.next
      && (forall i | k <= i < lx.next :: IsWhitespace(input[i]))
      && (lx.next == |input| || !IsWhitespace(input[lx.next]))
  {
  }

  /** The scanner never yields two WS tokens in a row: the scan that follows a WS token ends the
      input, fails on a lone quote, or yields a token of another kind. */
  lemma NoTwoWhitespaceTokens(input: string, k: nat)
    requires NoNul(input) && k <= |input|
    requires ScanAt(input, k).Success? && ScanAt(input, k).value.tok == Ws
    ensures var next := ScanAt(input, k).value.next;
      ScanAt(input, next).Success? ==> ScanAt(input, next).value.tok != Ws
  {
    var next := ScanAt(input, k).value.next;
    if next < |input| {
      assert !IsWhitespace(input[next]);
    }
  }

  /** A letter starts a word: the maximal run of letters, digits and '_'. Its kind is the keyword
      it spells exactly, and Ident for every other word. */
  lemma WordToken(input: string, k: nat)
    requires NoNul(input) && k < |input| && IsLetter(input[k])
    ensures ScanAt(input, k).Success?
    ensures var lx := ScanAt(input, k).value;
      && lx.lit == input[k..lx.next] && k < lx.next
      && (forall i | k <= i < lx.next :: IsLetter(input[i]) || IsDigit(input[i]) || input[i] == '_')
      && (lx.next == |input| || !(IsLetter(input[lx.next]) || IsDigit(input[lx.next]) || input[lx.next] == '_'))
      && (IsKeyword(lx.tok) ==> KeywordText(lx.tok) == lx.lit)
      && (lx.tok == Ident <==> forall kw | IsKeyword(kw) :: KeywordText(kw) != lx.lit)
      && (lx.tok == Ident || IsKeyword(lx.tok))
  {
  }

  /** A digit starts a NUMBER token: the maximal run of digits, with no sign or decimal point. */
  lemma NumberToken(input: string, k: nat)
    requires NoNul(input) && k < |input| && IsDigit(input[k])
    ensures ScanAt(input, k).Success?
    ensures var lx := ScanAt(input, k).value;
      && lx.tok == Number && lx.lit == input[k..lx.next] && k < lx.next
      && (forall i | k <= i < lx.next :: IsDigit(input[i]))
      && (lx.next == |input| || !IsDigit(input[lx.next]))
  {
  }

  /** A closed string literal: its literal is the text strictly between the quote at `k` and the
      next quote `q`, verbatim, and the scan resumes after `q`. */
  lemma ClosedStringToken(input: string, k: nat, q: nat)
    requires NoNul(input) && k < q < |input| && input[k] == '"' && input[q] == '"'
    requires forall i | k < i < q :: input[i] != '"'
    ensures ScanAt(input, k) == Success(Lexeme(StringLiteral, input[k + 1..q], q + 1))
  {
    QuoteEndIs(input, k + 1, q);
  }

  /** The first quote at or after `k` is at `q` when none comes before it. */
  lemma {:induction false} QuoteEndIs(input: string, k: nat, q: nat)
    requires k <= q <= |input|
    requires q == |input| || input[q] == '"'
    requires forall i | k <= i < q :: input[i] != '"'
    ensures QuoteEnd(input, k) == q
    decreases q - k
  {
    if k < q {
      QuoteEndIs(input, k + 1, q);
    }
  }

  /** An unterminated string literal runs to the end of the input and loses its final rune; a lone
      quote at the very end makes the slice of the one-rune buffer fail. */
  lemma UnclosedStringToken(input: string, k: nat)
    requires NoNul(input) && k < |input| && input[k] == '"'
    requires forall i | k < i < |input| :: input[i] != '"'
    ensures k + 1 == |input| ==> ScanAt(input, k) == Failure(SliceOutOfRange)
    ensures k + 1 < |input| ==> ScanAt(input, k) == Success(Lexeme(StringLiteral, input[k + 1..|input| - 1], |input|))
  {
    QuoteEndIs(input, k + 1, |input|);
  }

  /** `=`, `<` and `>` take a following '=' into a two-rune token; otherwise they stand alone and
      the lookahead rune starts the next token. */
  lemma ComparisonToken(input: string, k: nat)
    requires NoNul(input) && k < |input| && (input[k] == '=' || input[k] == '<' || input[k] == '>')
    ensures ScanAt(input, k).Success?
    ensures var lx := ScanAt(input, k).value;
      var two := k + 1 < |input| && input[k + 1] == '=';
      && lx.next == (if two then k + 2 else k + 1)
      && lx.lit == input[k..lx.next]
      && lx.tok == (match input[k]
                    case '=' => if two then Equals2 else Equals
                    case '<' => if two then LesserOrEquals else Lesser
                    case _ => if two then GreaterOrEquals else Greater)
  {
  }

  /** Every other rune is a one-rune token of its own kind, or Illegal: the content of the input never
      makes a scan fail. */
  lemma PunctuationToken(input: string, k: nat)
    requires NoNul(input) && k < |input|
    requires var ch := input[k]; !IsWhitespace(ch) && !IsLetter(ch) && !IsDigit(ch)
    requires input[k] != '"' && input[k] != '=' && input[k] != '<' && input[k] != '>'
    ensures ScanAt(input, k) == Success(Lexeme(SingleRuneKind(input[k]), [input[k]], k + 1))
    ensures ScanAt(input, k).value.tok == Illegal <==> input[k] !in "*,(){};+-"
  {
  }

  /** At the end of the input the scan yields EOF with an empty literal and stays at the end, so
      every later scan yields EOF again. */
  lemma EofToken(input: string)
    requires NoNul(input)
    ensures ScanAt(input, |input|) == Success(Lexeme(Eof, "", |input|))
    ensures ScanNext(input, |input|) == |input|
  {
  }

  /** The line of a position is one more than the number of newlines read so far. */
  lemma {:induction false} LineCountsNewlines(input: string, k: nat)
    requires k <= |input|
    ensures PositionAt(input, k).line == 1 + |set i | 0 <= i < k && input[i] == '\n'|
    ensures PositionAt(input, k).column == 1 && PositionAt(input, k).pos == k - 1
  {
    if k > 0 {
      LineCountsNewlines(input, k - 1);
      var before := set i | 0 <= i < k - 1 && input[i] == '\n';
      var upto := set i | 0 <= i < k && input[i] == '\n';
      if input[k - 1] == '\n' {
        assert upto == before + {k - 1};
      } else {
        assert upto == before;
      }
    }
  }
}
