/**
 * The recursive-descent parser of hephaestus.org/parser.go for `void Ident ( ) { (Ident = Number ;)+ }`.
 *
 * `ParseAt` and its helpers are the pure specification. They read the significant token at each
 * cursor of the input from a table (`SignificantTable`: what scanIgnoreWhitespace yields there, by
 * `ScanAt`). The `Parser` class is the Go object, with its one-token pushback buffer over a
 * `Scanner`, and its methods are proved against those functions.
 */
module Parsing {
  import opened Wrappers
  import opened Tokens
  import opened Lexer
  import opened Ast

  // ---------------------------------------------------------------- numbers (strconv.Atoi)

  /** The largest value of Go's 64-bit `int`. */
  const MaxInt: int := 0x7fff_ffff_ffff_ffff

  function DigitValue(ch: char): nat
    requires IsDigit(ch)
  {
    (ch as int) - ('0' as int)
  }

  /** The value of a string of decimal digits, or None when some character is not a digit. */
  function DigitsValue(s: string): Option<nat> {
    if s == [] then Some(0)
    else match DigitsValue(s[..|s| - 1])
      case None => None
      case Some(v) => if IsDigit(s[|s| - 1]) then Some(10 * v + DigitValue(s[|s| - 1])) else None
  }

  /** The canonical decimal text of `n`: digits only, no leading zero, and "0" for zero. */
  function DecimalText(n: nat): (s: string)
    ensures s != [] && (forall i | 0 <= i < |s| :: IsDigit(s[i]))
    ensures s[0] == '0' ==> n == 0
    decreases n
  {
    var last := ['0' + ((n % 10) as char)];
    if n < 10 then last else DecimalText(n / 10) + last
  }

  /** strconv.Atoi on the text of a NUMBER literal: its value when it fits Go's `int`, else an error. */
  function Atoi(s: string): (r: Option<int>)
    ensures r.Some? ==> s != [] && (forall i | 0 <= i < |s| :: IsDigit(s[i])) && 0 <= r.value <= MaxInt
    ensures r.None? && s != [] && (forall i | 0 <= i < |s| :: IsDigit(s[i])) ==>
      DigitsValue(s).Some? && MaxInt < DigitsValue(s).value
  {
    DigitsValueDefined(s);
    if s == [] then None
    else match DigitsValue(s)
      case None => None
      case Some(v) => if v <= MaxInt then Some(v) else None
  }

  // ---------------------------------------------------------------- errors

  datatype ParseError =
    | Unexpected(found: string, expected: string)  // "found %q, expected ..."
    | InInstruction(cause: ParseError)             // "expected instruction: ..."
    | ScanFailed(scanError: ScanError)             // the scanner's failure, passed on unchanged

  /** The `%q` form of a literal: quoted, with quotes, backslashes and control characters escaped. */
  function Quote(s: string): string {
    "\"" + QuoteBody(s) + "\""
  }

  function QuoteBody(s: string): string {
    if s == [] then ""
    else
      var ch := s[0];
      var esc :=
        if ch == '"' then "\\\"" else if ch == '\\' then "\\\\"
        else if ch == '\n' then "\\n" else if ch == '\t' then "\\t" else if ch == '\r' then "\\r"
        else [ch];
      esc + QuoteBody(s[1..])
  }

  /** A literal with nothing to escape is quoted as it is. */
  lemma {:induction false} QuotePlain(s: string)
    requires forall i | 0 <= i < |s| :: s[i] !in "\"\\\n\t\r"
    ensures Quote(s) == "\"" + s + "\""
  {
    QuoteBodyPlain(s);
  }

  lemma {:induction false} QuoteBodyPlain(s: string)
    requires forall i | 0 <= i < |s| :: s[i] !in "\"\\\n\t\r"
    ensures QuoteBody(s) == s
  {
    if s != [] {
      QuoteBodyPlain(s[1..]);
      assert [s[0]] + s[1..] == s;
    }
  }

  function ScanErrorText(e: ScanError): string {
    match e
    case NoCharacterBefore => "no character before"
    case SliceOutOfRange => "runtime error: slice bounds out of range [1:0]"
  }

  /** The text of an error, as the Go parser formats it. */
  function Message(e: ParseError): string {
    match e
    case Unexpected(found, expected) => "found " + Quote(found) + ", expected " + expected
    case InInstruction(cause) => "expected instruction: " + Message(cause)
    case ScanFailed(cause) => ScanErrorText(cause)
  }

  // ---------------------------------------------------------------- the grammar, on a cursor

  /** A parsed value and the cursor after it. */
  datatype Parsed<T> = Parsed(value: T, next: nat)

  /** What scanIgnoreWhitespace fetches at `k`: the next token, or the one after it when that is
      WS. As the scanner never yields two WS tokens in a row, the result is never WS. */
  function SignificantAt(input: string, k: nat): (r: Result<Lexeme, ScanError>)
    requires NoNul(input) && k <= |input|
    ensures r.Success? ==> r.value.tok != Ws && k <= r.value.next <= |input|
    ensures r.Success? && r.value.tok != Eof ==> k < r.value.next
  {
    match ScanAt(input, k)
    case Failure(e) => Failure(e)
    case Success(lx) =>
      if lx.tok == Ws then NoTwoWhitespaceTokens(input, k); ScanAt(input, lx.next) else Success(lx)
  }

  /** A token at every cursor 0 .. |input| of an input. */
  type Table = seq<Result<Lexeme, ScanError>>

  /** The scanner's token at every cursor. */
  function TokenTable(input: string): (t: Table)
    requires NoNul(input)
    ensures |t| == |input| + 1
    ensures forall k | 0 <= k <= |input| :: t[k] == ScanAt(input, k)
  {
    seq(|input| + 1, k requires 0 <= k <= |input| => ScanAt(input, k))
  }

  /** Where the reader stands after a scan: past the token, or at the end after a failure. */
  function After(r: Result<Lexeme, ScanError>, end: nat): nat {
    match r
    case Success(lx) => lx.next
    case Failure(_) => end
  }

  /** No entry is WS, and every entry's cursor stays in the table and moves forward past any token
      but EOF. */
  predicate WellFormed(t: Table) {
    forall k | 0 <= k < |t| :: t[k].Success? ==>
      && t[k].value.tok != Ws && k <= t[k].value.next < |t|
      && (t[k].value.tok != Eof ==> k < t[k].value.next)
  }

  function SignificantTable(input: string): (t: Table)
    requires NoNul(input)
    ensures |t| == |input| + 1 && WellFormed(t)
    ensures forall k | 0 <= k <= |input| :: t[k] == SignificantAt(input, k)
  {
    seq(|input| + 1, k requires 0 <= k <= |input| => SignificantAt(input, k))
  }

  /** The next significant token, which must be of `kind`; `what` names it in the error. */
  function Expect(t: Table, k: nat, kind: TokenKind, what: string): (r: Result<Lexeme, ParseError>)
    requires WellFormed(t) && k < |t|
    ensures r.Success? ==> r.value.tok == kind && k <= r.value.next < |t|
    ensures r.Success? && kind != Eof ==> k < r.value.next
  {
    match t[k]
    case Failure(e) => Failure(ScanFailed(e))
    case Success(lx) => if lx.tok == kind then Success(lx) else Failure(Unexpected(lx.lit, what))
  }

  /** One instruction `Ident = Number ;`, the number converted by Atoi. */
  function InstrAt(t: Table, k: nat): (r: Result<Parsed<Instruction>, ParseError>)
    requires WellFormed(t) && k < |t|
    ensures r.Success? ==> k < r.value.next < |t|
  {
    var id :- Expect(t, k, Ident, "identifier");
    var eq :- Expect(t, id.next, Equals, "=");
    var num :- Expect(t, eq.next, Number, "number");
    match Atoi(num.lit)
    case None => Failure(Unexpected(num.lit, "number"))
    case Some(n) =>
      var semi :- Expect(t, num.next, Semicolon, "';'");
      Success(Parsed(Instruction(id.lit, IntLit(n)), semi.next))
  }

  /** The loop of parseInstr: instructions until the token after one of them is '}'; the cursor
      ends after that '}'. */
  function BodyAt(t: Table, k: nat): (r: Result<Parsed<seq<Instruction>>, ParseError>)
    requires WellFormed(t) && k < |t|
    ensures r.Success? ==> k < r.value.next < |t| && r.value.value != []
    decreases |t| - k
  {
    var instr :- InstrAt(t, k);
    match t[instr.next]
    case Failure(e) => Failure(ScanFailed(e))
    case Success(peek) =>
      if peek.tok == CloseCurlyBracket then Success(Parsed([instr.value], peek.next))
      else
        var rest :- BodyAt(t, instr.next);
        Success(Parsed([instr.value] + rest.value, rest.next))
  }

  /** The head of Parse2: `void`, the function name, `(`, `)` and `{`; the name and the cursor
      after the `{`. */
  function HeaderAt(t: Table, k: nat): (r: Result<Parsed<string>, ParseError>)
    requires WellFormed(t) && k < |t|
    ensures r.Success? ==> k < r.value.next < |t|
  {
    var v :- Expect(t, k, Void, "void");
    var name :- Expect(t, v.next, Ident, "main");
    var open :- Expect(t, name.next, OpenParenthesis, "(");
    var close :- Expect(t, open.next, CloseParenthesis, ")");
    var curly :- Expect(t, close.next, OpenCurlyBracket, "{");
    Success(Parsed(name.lit, curly.next))
  }

  /** Parse2: the head, then the body; a one-element list. A failure in the body is reported
      under "expected instruction: ", unless the scanner itself failed. */
  function ParseAt(t: Table, k: nat): (r: Result<Parsed<seq<Function>>, ParseError>)
    requires WellFormed(t) && k < |t|
    ensures r.Success? ==> |r.value.value| == 1 && r.value.value[0].instructions != [] && k < r.value.next < |t|
  {
    var header :- HeaderAt(t, k);
    match BodyAt(t, header.next)
    case Failure(e) => Failure(if e.ScanFailed? then e else InInstruction(e))
    case Success(body) => Success(Parsed([Function(header.value, body.value)], body.next))
  }

  /** Parse2 on a fresh parser over `input`. */
  function ParseText(input: string): (r: Result<Parsed<seq<Function>>, ParseError>)
    requires NoNul(input)
    ensures r.Success? ==> |r.value.value| == 1 && r.value.value[0].instructions != [] && 0 < r.value.next <= |input|
  {
    ParseAt(SignificantTable(input), 0)
  }

  /** The (tok, lit) pair a scan hands to the parser. */
  function TokOf(r: Result<Lexeme, ScanError>): Result<(TokenKind, string), ScanError> {
    match r
    case Success(lx) => Success((lx.tok, lx.lit))
    case Failure(e) => Failure(e)
  }

  /** Instructions parsed so far, in front of what the rest of the body yields. */
  function Prepend(done: seq<Instruction>, r: Result<Parsed<seq<Instruction>>, ParseError>)
    : Result<Parsed<seq<Instruction>>, ParseError>
  {
    match r
    case Success(p) => Success(Parsed(done + p.value, p.next))
    case Failure(e) => Failure(e)
  }

  // ---------------------------------------------------------------- the parser object

  class Parser {
    const s: Scanner
    /** The last token read, and whether it is pushed back (`n`, at most 1). */
    var bufTok: TokenKind
    var bufLit: string
    var bufN: nat
    /** The scanner's token, and the significant token, at each cursor of the scanner's input. */
    ghost const tokens: Table
    ghost const table: Table

    ghost predicate Valid()
      reads this, s
    {
      s.Valid() && bufN <= 1 && Tables()
    }

    /** `tokens` and `table` hold the scanner's token and the significant token at every cursor;
        as all of these are constants, no method changes this. */
    ghost predicate Tables() {
      && NoNul(s.input)
      && |tokens| == |s.input| + 1
      && (forall k {:trigger ScanAt(s.input, k)} | 0 <= k <= |s.input| :: tokens[k] == ScanAt(s.input, k))
      && |table| == |s.input| + 1 && WellFormed(table)
      && forall k {:trigger SignificantAt(s.input, k)} | 0 <= k <= |s.input| :: table[k] == SignificantAt(s.input, k)
    }

    /** The parser stands at cursor `k`: either nothing is pushed back and the scanner is at `k`, or
        the pushed-back token is the significant token at `k` and the scanner is just after it. */
    ghost predicate At(k: nat)
      reads this, s
    {
      && Valid()
      && k <= |s.input|
      && (|| (bufN == 0 && s.cursor == k)
          || (bufN == 1 && table[k] == Success(Lexeme(bufTok, bufLit, s.cursor))))
    }

    /** NewParser. */
    constructor (input: string)
      requires NoNul(input)
      ensures Valid() && fresh(s) && s.input == input && s.cursor == 0 && bufN == 0
      ensures tokens == TokenTable(input) && table == SignificantTable(input)
    {
      s := new Scanner(input);
      bufTok := Illegal;
      bufLit := "";
      bufN := 0;
      tokens := TokenTable(input);
      table := SignificantTable(input);
    }

    /** scan: the pushed-back token if there is one, else a fresh token, which is remembered. */
    method Scan() returns (r: Result<(TokenKind, string), ScanError>)
      requires Valid()
      modifies this, s
      ensures Valid() && bufN == 0
      ensures old(bufN) != 0 ==>
        && r == Success((old(bufTok), old(bufLit)))
        && s.cursor == old(s.cursor) && bufTok == old(bufTok) && bufLit == old(bufLit)
      ensures old(bufN) != 0 ==> unchanged(s)
      ensures old(bufN) == 0 ==>
        && r == TokOf(tokens[old(s.cursor)])
        && s.cursor == After(tokens[old(s.cursor)], |s.input|)
        && (r.Success? ==> (bufTok, bufLit) == r.value)
    {
      if bufN != 0 {
        bufN := 0;
        return Success((bufTok, bufLit));
      }
      ghost var k := s.cursor;
      assert tokens[k] == ScanAt(s.input, k);
      var res := s.Scan();
      match res {
        case Failure(e) => return Failure(e);
        case Success(sr) =>
          bufTok, bufLit := sr.tok, sr.lit;
          return Success((sr.tok, sr.lit));
      }
    }

    /** scanIgnoreWhitespace: `scan`, and once more if that gave WS. From a fresh scan the result
        is the significant token at the cursor. */
    method ScanIgnoreWhitespace() returns (r: Result<(TokenKind, string), ScanError>)
      requires Valid()
      modifies this, s
      ensures Valid() && bufN == 0
      ensures old(bufN) == 0 ==>
        && r == TokOf(table[old(s.cursor)])
        && (r.Success? ==> s.cursor == table[old(s.cursor)].value.next && (bufTok, bufLit) == r.value)
      ensures old(bufN) != 0 && old(bufTok) != Ws ==>
        && r == Success((old(bufTok), old(bufLit)))
        && s.cursor == old(s.cursor) && bufTok == old(bufTok) && bufLit == old(bufLit)
      ensures old(bufN) != 0 && old(bufTok) != Ws ==> unchanged(s)
      ensures old(bufN) != 0 && old(bufTok) == Ws ==>
        && r == TokOf(tokens[old(s.cursor)])
        && (r.Success? ==> s.cursor == tokens[old(s.cursor)].value.next && (bufTok, bufLit) == r.value)
    {
      ghost var k := s.cursor;
      assert table[k] == SignificantAt(s.input, k);
      r := Scan();
      match r {
        case Failure(_) => return;
        case Success((tok, _)) =>
          if tok == Ws {
            r := Scan();
          }
      }
    }

    /** unscan: push the last token back. */
    method Unscan()
      requires Valid()
      modifies this
      ensures Valid() && bufN == 1 && bufTok == old(bufTok) && bufLit == old(bufLit)
    {
      bufN := 1;
    }

    /** The check after each scanIgnoreWhitespace of parseInstr and Parse2: the token must be of
        `kind`, else the parse fails with "found %q, expected `what`". */
    method ExpectToken(kind: TokenKind, what: string, ghost k: nat) returns (r: Result<string, ParseError>)
      requires At(k)
      modifies this, s
      ensures Valid() && bufN == 0
      ensures match Expect(table, k, kind, what)
              case Success(lx) => r == Success(lx.lit) && s.cursor == lx.next
              case Failure(e) => r == Failure(e)
    {
      var t := ScanIgnoreWhitespace();
      match t {
        case Failure(e) => return Failure(ScanFailed(e));
        case Success((tok, lit)) =>
          if tok != kind {
            return Failure(Unexpected(lit, what));
          }
          return Success(lit);
      }
    }

    /** One pass of parseInstr's loop up to the ';': an identifier, '=', a number that Atoi
        accepts and ';', each fetched with scanIgnoreWhitespace; the first mismatch is the error. */
    method ParseAssignment(ghost k: nat) returns (r: Result<Instruction, ParseError>)
      requires At(k)
      modifies this, s
      ensures Valid() && bufN == 0
      ensures match InstrAt(table, k)
              case Success(p) => r == Success(p.value) && s.cursor == p.next
              case Failure(e) => r == Failure(e)
    {
      var t := ExpectToken(Ident, "identifier", k);
      if t.Failure? {
        return Failure(t.error);
      }
      var variable := t.value;
      t := ExpectToken(Equals, "=", s.cursor);
      if t.Failure? {
        return Failure(t.error);
      }
      t := ExpectToken(Number, "number", s.cursor);
      if t.Failure? {
        return Failure(t.error);
      }
      var value := Atoi(t.value);
      if value.None? {
        return Failure(Unexpected(t.value, "number"));
      }
      t := ExpectToken(Semicolon, "';'", s.cursor);
      if t.Failure? {
        return Failure(t.error);
      }
      return Success(Instruction(variable, IntLit(value.value)));
    }

    /** The body's closing '}', the significant token at `last`, is pushed back and the scanner
        stands at `next`, just after it. */
    ghost predicate ClosedAt(last: nat, next: nat)
      reads this, s
    {
      && At(last) && bufN == 1 && bufTok == CloseCurlyBracket && s.cursor == next
      && table[last] == Success(Lexeme(CloseCurlyBracket, bufLit, next))
    }

    /** The look-ahead of parseInstr's loop: scanIgnoreWhitespace, then unscan, so that the token
        is read again by the next step. */
    method Peek(ghost k: nat) returns (r: Result<TokenKind, ScanError>)
      requires Valid() && bufN == 0 && s.cursor == k
      modifies this, s
      ensures Valid()
      ensures match table[k]
              case Failure(e) => r == Failure(e)
              case Success(lx) => r == Success(lx.tok) && At(k) && bufN == 1 && bufTok == lx.tok
    {
      var t := ScanIgnoreWhitespace();
      match t {
        case Failure(e) => return Failure(e);
        case Success((tok, _)) =>
          Unscan();
          return Success(tok);
      }
    }

    /** parseInstr: instructions appended to `funct` in source order until the token after one of
        them is '}', which is pushed back; the first mismatch aborts with its error. */
    method ParseInstr(funct: Function) returns (r: Result<Function, ParseError>, ghost last: nat)
      requires Valid() && bufN == 0
      modifies this, s
      ensures Valid()
      ensures match BodyAt(table, old(s.cursor))
              case Success(body) =>
                r == Success(funct.(instructions := funct.instructions + body.value)) && ClosedAt(last, body.next)
              case Failure(e) => r == Failure(e)
    {
      ghost var start := s.cursor;
      ghost var k := start;
      ghost var done: seq<Instruction> := [];
      PrependNothing(BodyAt(table, start));
      var f := funct;
      while true
        invariant At(k) && start <= k
        invariant f.name == funct.name && f.instructions == funct.instructions + done
        invariant BodyAt(table, start) == Prepend(done, BodyAt(table, k))
        decreases |s.input| - k
      {
        BodyLoop(table, start, k, done);
        var instr := ParseAssignment(k);
        if instr.Failure? {
          return Failure(instr.error), k;
        }
        ghost var next := s.cursor;
        f := f.(instructions := f.instructions + [instr.value]);
        assert f.instructions == funct.instructions + (done + [instr.value]);
        done := done + [instr.value];

        var peek := Peek(next);
        match peek {
          case Failure(e) => return Failure(ScanFailed(e)), k;
          case Success(_) =>
        }
        if peek.value == CloseCurlyBracket {
          last := next;
          break;
        }
        k := next;
      }
      return Success(f), last;
    }

    /** The first five checks of Parse2: `void`, the function name, `(`, `)` and `{`, each fetched
        with scanIgnoreWhitespace; the first mismatch is the error. */
    method ParseHeader() returns (r: Result<string, ParseError>)
      requires Valid() && bufN == 0
      modifies this, s
      ensures Valid() && bufN == 0
      ensures match HeaderAt(table, old(s.cursor))
              case Success(h) => r == Success(h.value) && s.cursor == h.next
              case Failure(e) => r == Failure(e)
    {
      var t := ExpectToken(Void, "void", s.cursor);
      if t.Failure? {
        return Failure(t.error);
      }
      t := ExpectToken(Ident, "main", s.cursor);
      if t.Failure? {
        return Failure(t.error);
      }
      var name := t.value;
      t := ExpectToken(OpenParenthesis, "(", s.cursor);
      if t.Failure? {
        return Failure(t.error);
      }
      t := ExpectToken(CloseParenthesis, ")", s.cursor);
      if t.Failure? {
        return Failure(t.error);
      }
      t := ExpectToken(OpenCurlyBracket, "{", s.cursor);
      if t.Failure? {
        return Failure(t.error);
      }
      return Success(name);
    }

    /** Parse2: `void`, the function name, `(`, `)`, `{`, the instructions and `}`; the parse stops
        at that `}` and the result is a one-element list. */
    method Parse2() returns (r: Result<seq<Function>, ParseError>)
      requires Valid() && bufN == 0
      modifies this, s
      ensures Valid()
      ensures match ParseAt(table, old(s.cursor))
              case Success(p) => r == Success(p.value) && s.cursor == p.next
              case Failure(e) => r == Failure(e)
    {
      ghost var k0 := s.cursor;
      var funct := Function("", []);
      var header := ParseHeader();
      if header.Failure? {
        return Failure(header.error);
      }
      funct := funct.(name := header.value);

      ghost var k5 := s.cursor;
      var res, last := ParseInstr(funct);
      if res.Failure? {
        var e := res.error;
        return Failure(if e.ScanFailed? then e else InInstruction(e));
      }
      ghost var body := BodyAt(table, k5).value;
      ParseOf(table, k0, HeaderAt(table, k0).value, body);
      funct := res.value;

      var closing := ExpectToken(CloseCurlyBracket, "}", last);
      match closing {
        case Failure(e) => return Failure(e);
        case Success(_) =>
      }
      return Success([funct]);
    }
  }

  lemma PrependNothing(r: Result<Parsed<seq<Instruction>>, ParseError>)
    ensures Prepend([], r) == r
  {
    if r.Success? {
      assert [] + r.value.value == r.value.value;
    }
  }

  lemma PrependTwice(done: seq<Instruction>, i: Instruction, r: Result<Parsed<seq<Instruction>>, ParseError>)
    ensures Prepend(done, Prepend([i], r)) == Prepend(done + [i], r)
  {
    if r.Success? {
      assert done + ([i] + r.value.value) == done + [i] + r.value.value;
    }
  }

  /** One step of the body loop: after the instruction at `k`, the next token decides. */
  lemma BodyStep(t: Table, k: nat)
    requires WellFormed(t) && k < |t| && InstrAt(t, k).Success?
    ensures var instr := InstrAt(t, k).value;
      match t[instr.next]
      case Failure(e) => BodyAt(t, k) == Failure(ScanFailed(e))
      case Success(peek) =>
        BodyAt(t, k) == if peek.tok == CloseCurlyBracket then Success(Parsed([instr.value], peek.next))
                        else Prepend([instr.value], BodyAt(t, instr.next))
  {
  }

  /** One pass of the body loop from `k`, with `done` parsed since `start`: the instruction at `k`
      fails, or the token after it ends the body, or the loop goes on after it. */
  lemma BodyLoop(t: Table, start: nat, k: nat, done: seq<Instruction>)
    requires WellFormed(t) && k < |t| && start < |t|
    requires BodyAt(t, start) == Prepend(done, BodyAt(t, k))
    ensures match InstrAt(t, k)
      case Failure(e) => BodyAt(t, start) == Failure(e)
      case Success(instr) =>
        match t[instr.next]
        case Failure(e) => BodyAt(t, start) == Failure(ScanFailed(e))
        case Success(peek) =>
          if peek.tok == CloseCurlyBracket then BodyAt(t, start) == Success(Parsed(done + [instr.value], peek.next))
          else BodyAt(t, start) == Prepend(done + [instr.value], BodyAt(t, instr.next))
  {
    if InstrAt(t, k).Success? {
      var instr := InstrAt(t, k).value;
      BodyStep(t, k);
      PrependTwice(done, instr.value, BodyAt(t, instr.next));
    }
  }

  // ---------------------------------------------------------------- properties of Atoi

  /** A string has a digit value exactly when every character of it is a digit. */
  lemma {:induction false} DigitsValueDefined(s: string)
    ensures DigitsValue(s).Some? <==> forall i | 0 <= i < |s| :: IsDigit(s[i])
  {
    if s != [] {
      var init := s[..|s| - 1];
      DigitsValueDefined(init);
      assert forall i | 0 <= i < |init| :: init[i] == s[i];
    }
  }

  /** Reading back the decimal text of `n` gives `n`. */
  lemma {:induction false} DigitsOfDecimalText(n: nat)
    ensures DigitsValue(DecimalText(n)) == Some(n)
    decreases n
  {
    var last := ['0' + ((n % 10) as char)];
    if n < 10 {
      assert DecimalText(n)[..0] == [];
    } else {
      var init := DecimalText(n / 10);
      DigitsOfDecimalText(n / 10);
      var t := init + last;
      assert t[..|t| - 1] == init;
    }
  }

  /** Atoi accepts the decimal text of every value of Go's `int` range from 0 up, and returns it. */
  lemma AtoiDecimalText(n: nat)
    requires n <= MaxInt
    ensures Atoi(DecimalText(n)) == Some(n)
  {
    DigitsOfDecimalText(n);
  }

  /** A value Atoi accepts is the value of its digits: Atoi does no more than check the range. */
  lemma AtoiValue(s: string)
    ensures Atoi(s).Some? ==> DigitsValue(s) == Atoi(s)
  {
  }

  /** Leading zeros do not change what Atoi returns: "05" is 5, as with strconv.Atoi. */
  lemma AtoiLeadingZeros(z: nat, n: nat)
    requires n <= MaxInt
    ensures Atoi(Zeros(z) + DecimalText(n)) == Some(n)
  {
    DigitsOfDecimalText(n);
    DigitsValueZeros(z, DecimalText(n));
  }

  /** `z` zero digits. */
  function Zeros(z: nat): (s: string)
    ensures |s| == z && forall i | 0 <= i < z :: s[i] == '0'
  {
    if z == 0 then "" else "0" + Zeros(z - 1)
  }

  /** Zero digits in front of a string do not change its digit value. */
  lemma {:induction false} DigitsValueZeros(z: nat, s: string)
    ensures DigitsValue(Zeros(z) + s) == DigitsValue(s)
    decreases |s|
  {
    if s == [] {
      assert Zeros(z) + s == Zeros(z);
      ZerosValue(z);
    } else {
      var u := Zeros(z) + s;
      assert u[..|u| - 1] == Zeros(z) + s[..|s| - 1] && u[|u| - 1] == s[|s| - 1];
      DigitsValueZeros(z, s[..|s| - 1]);
    }
  }

  /** A string of zeros has the value 0. */
  lemma {:induction false} ZerosValue(z: nat)
    ensures DigitsValue(Zeros(z)) == Some(0)
  {
    if z > 0 {
      var u := Zeros(z);
      assert u[..z - 1] == Zeros(z - 1) by {
        ZerosPrefix(z);
      }
      ZerosValue(z - 1);
    }
  }

  lemma ZerosPrefix(z: nat)
    requires 0 < z
    ensures Zeros(z)[..z - 1] == Zeros(z - 1)
  {
  }

  /** Atoi refuses a value past the range of Go's `int`. */
  lemma AtoiOutOfRange(n: nat)
    requires MaxInt < n
    ensures Atoi(DecimalText(n)) == None
  {
    DigitsOfDecimalText(n);
  }

  // ---------------------------------------------------------------- the language Parse2 accepts

  /** The literals of the tokens walked over, and the cursor after the last of them. */
  datatype Walked = Walked(lits: seq<string>, end: nat)

  /** Walking a table along a list of token kinds, or None when a scanner failure or a token of
      another kind comes first. */
  function Walk(t: Table, k: nat, kinds: seq<TokenKind>): (r: Option<Walked>)
    ensures r.Some? ==> |r.value.lits| == |kinds|
    ensures r.Some? && kinds != [] ==> k < |t|
    decreases |kinds|
  {
    if kinds == [] then Some(Walked([], k))
    else if |t| <= k then None
    else match t[k]
      case Failure(_) => None
      case Success(lx) =>
        if lx.tok != kinds[0] then None
        else match Walk(t, lx.next, kinds[1..])
          case None => None
          case Some(w) => Some(Walked([lx.lit] + w.lits, w.end))
  }

  /** The kinds of one instruction, `Ident = Number ;`. */
  const InstrKinds: seq<TokenKind> := [Ident, Equals, Number, Semicolon]

  /** The kinds of `n` instructions and the closing '}'. */
  function BodyKinds(n: nat): (kinds: seq<TokenKind>)
    ensures |kinds| == 4 * n + 1
  {
    if n == 0 then [CloseCurlyBracket] else InstrKinds + BodyKinds(n - 1)
  }

  /** The kinds of `void Ident ( ) {`. */
  const HeadKinds: seq<TokenKind> := [Void, Ident, OpenParenthesis, CloseParenthesis, OpenCurlyBracket]

  /** The kinds of a whole program of `n` instructions. */
  function ProgramKinds(n: nat): seq<TokenKind> {
    HeadKinds + BodyKinds(n)
  }

  /** The instruction the literals of `Ident = Number ;` spell, or None when the number does not
      convert. */
  function InstrOf(lits: seq<string>): Option<Instruction>
    requires 3 <= |lits|
  {
    match Atoi(lits[2])
    case None => None
    case Some(v) => Some(Instruction(lits[0], IntLit(v)))
  }

  /** The `n` instructions that the literals of `n` groups `Ident = Number ;` spell, or None when
      a number does not convert. */
  function Assignments(lits: seq<string>, n: nat): Option<seq<Instruction>>
    requires 4 * n <= |lits|
  {
    if n == 0 then Some([])
    else match InstrOf(lits)
      case None => None
      case Some(i) =>
        match Assignments(lits[4..], n - 1)
        case None => None
        case Some(rest) => Some([i] + rest)
  }

  /** The first group of literals spells the first instruction. */
  lemma AssignmentsCons(a: seq<string>, b: seq<string>, n: nat)
    requires |a| == 4 && 0 < n && 4 * (n - 1) <= |b|
    ensures Assignments(a + b, n) == match InstrOf(a)
                                     case None => None
                                     case Some(i) =>
                                       match Assignments(b, n - 1)
                                       case None => None
                                       case Some(rest) => Some([i] + rest)
  {
    assert (a + b)[4..] == b;
    assert (a + b)[0] == a[0] && (a + b)[2] == a[2];
  }

  /** A walk along one kind is one token of that kind. */
  lemma WalkOne(t: Table, k: nat, kind: TokenKind)
    ensures Walk(t, k, [kind]) ==
      if k < |t| && t[k].Success? && t[k].value.tok == kind then Some(Walked([t[k].value.lit], t[k].value.next))
      else None
  {
    assert [kind][1..] == [];
    if k < |t| && t[k].Success? && t[k].value.tok == kind {
      assert [t[k].value.lit] + [] == [t[k].value.lit];
    }
  }

  /** Two walks, one after the other, are a walk along the concatenation. */
  lemma {:induction false} WalkJoin(t: Table, k: nat, a: seq<TokenKind>, b: seq<TokenKind>, wa: Walked, wb: Walked)
    requires Walk(t, k, a) == Some(wa) && Walk(t, wa.end, b) == Some(wb)
    ensures Walk(t, k, a + b) == Some(Walked(wa.lits + wb.lits, wb.end))
    decreases |a|
  {
    if a == [] {
      assert a + b == b && wa.lits + wb.lits == wb.lits;
    } else {
      ConsAppend(a, b);
      var lx := t[k].value;
      var w := Walk(t, lx.next, a[1..]).value;
      WalkJoin(t, lx.next, a[1..], b, w, wb);
      ConsAssoc(lx.lit, w.lits, wb.lits);
    }
  }

  lemma ConsAppend(a: seq<TokenKind>, b: seq<TokenKind>)
    requires a != []
    ensures (a + b)[0] == a[0] && (a + b)[1..] == a[1..] + b
  {
  }

  lemma ConsAssoc(x: string, y: seq<string>, z: seq<string>)
    ensures [x] + (y + z) == ([x] + y) + z
  {
  }

  /** A walk along a concatenation is two walks, one after the other. */
  lemma {:induction false} WalkSplit(t: Table, k: nat, a: seq<TokenKind>, b: seq<TokenKind>) returns (wa: Walked, wb: Walked)
    requires Walk(t, k, a + b).Some?
    ensures Walk(t, k, a) == Some(wa) && Walk(t, wa.end, b) == Some(wb)
    ensures Walk(t, k, a + b) == Some(Walked(wa.lits + wb.lits, wb.end))
    decreases |a|
  {
    if a == [] {
      assert a + b == b;
      wa := Walked([], k);
      wb := Walk(t, k, b).value;
      assert wa.lits + wb.lits == wb.lits;
    } else {
      ConsAppend(a, b);
      var lx := t[k].value;
      var w, w2 := WalkSplit(t, lx.next, a[1..], b);
      wa := Walked([lx.lit] + w.lits, w.end);
      wb := w2;
      ConsAssoc(lx.lit, w.lits, wb.lits);
    }
  }

  /** The four kinds of an instruction in a row, with a number Atoi accepts, are the instruction
      InstrAt parses. */
  lemma InstrComplete(t: Table, k: nat, w: Walked)
    requires WellFormed(t) && k < |t| && Walk(t, k, InstrKinds) == Some(w) && InstrOf(w.lits).Some?
    ensures InstrAt(t, k) == Success(Parsed(InstrOf(w.lits).value, w.end))
  {
    assert InstrKinds[1..][1..][1..][1..] == [];
  }

  /** Conversely, an instruction InstrAt parses is those four kinds in a row. */
  lemma InstrSound(t: Table, k: nat) returns (w: Walked)
    requires WellFormed(t) && k < |t| && InstrAt(t, k).Success?
    ensures Walk(t, k, InstrKinds) == Some(w) && InstrOf(w.lits).Some?
    ensures InstrAt(t, k) == Success(Parsed(InstrOf(w.lits).value, w.end))
  {
    InstrWalks(t, k);
    w := Walk(t, k, InstrKinds).value;
    InstrComplete(t, k, w);
  }

  lemma InstrWalks(t: Table, k: nat)
    requires WellFormed(t) && k < |t| && InstrAt(t, k).Success?
    ensures Walk(t, k, InstrKinds).Some? && InstrOf(Walk(t, k, InstrKinds).value.lits).Some?
  {
    var id := Expect(t, k, Ident, "identifier").value;
    var eq := Expect(t, id.next, Equals, "=").value;
    var num := Expect(t, eq.next, Number, "number").value;
    var semi := Expect(t, num.next, Semicolon, "';'").value;
    WalkCons(t, num.next, Semicolon, []);
    WalkCons(t, eq.next, Number, [Semicolon] + []);
    WalkCons(t, id.next, Equals, [Number] + ([Semicolon] + []));
    WalkCons(t, k, Ident, [Equals] + ([Number] + ([Semicolon] + [])));
    assert [Ident] + ([Equals] + ([Number] + ([Semicolon] + []))) == InstrKinds;
    InstrWalkLits(t, k);
  }

  /** The third literal of an instruction's walk is its number. */
  lemma InstrWalkLits(t: Table, k: nat)
    requires Walk(t, k, InstrKinds).Some?
    ensures var m := t[t[k].value.next].value.next;
      (m < |t| && t[m].Success? && Walk(t, k, InstrKinds).value.lits[2] == t[m].value.lit)
  {
    assert InstrKinds[1..][1..][1..][1..] == [];
  }

  /** One step of the body loop, the instruction read off its four tokens. */
  lemma BodyCons(t: Table, k: nat, wi: Walked)
    requires WellFormed(t) && k < |t| && Walk(t, k, InstrKinds) == Some(wi) && InstrOf(wi.lits).Some?
    ensures wi.end < |t|
    ensures match t[wi.end]
      case Failure(e) => BodyAt(t, k) == Failure(ScanFailed(e))
      case Success(peek) =>
        BodyAt(t, k) == if peek.tok == CloseCurlyBracket then Success(Parsed([InstrOf(wi.lits).value], peek.next))
                        else Prepend([InstrOf(wi.lits).value], BodyAt(t, wi.end))
  {
    InstrComplete(t, k, wi);
    BodyStep(t, k);
  }

  /** `n` instructions and a '}', with numbers Atoi accepts, are the body BodyAt parses. */
  lemma {:induction false} BodyComplete(t: Table, k: nat, n: nat, w: Walked)
    requires WellFormed(t) && k < |t| && 0 < n
    requires Walk(t, k, BodyKinds(n)) == Some(w) && Assignments(w.lits, n).Some?
    ensures BodyAt(t, k) == Success(Parsed(Assignments(w.lits, n).value, w.end))
    decreases n
  {
    var wi, wr := WalkSplit(t, k, InstrKinds, BodyKinds(n - 1));
    AssignmentsCons(wi.lits, wr.lits, n);
    BodyCons(t, k, wi);
    var i := InstrOf(wi.lits).value;
    if 1 < n {
      assert BodyKinds(n - 1)[0] == Ident;
      BodyComplete(t, wi.end, n - 1, wr);
    } else {
      WalkOne(t, wi.end, CloseCurlyBracket);
      assert [i] + [] == [i];
    }
  }

  /** Conversely, a body BodyAt parses is `n` instructions and a '}', for some `n` > 0. */
  lemma {:induction false} BodySound(t: Table, k: nat) returns (n: nat, w: Walked)
    requires WellFormed(t) && k < |t| && BodyAt(t, k).Success?
    ensures BodyWalk(t, k, n, w)
    decreases |t| - k
  {
    var wi := InstrSound(t, k);
    BodyCons(t, k, wi);
    var peek := t[wi.end].value;
    var wr: Walked;
    if peek.tok == CloseCurlyBracket {
      n := 1;
      wr := Walked([peek.lit], peek.next);
      WalkOne(t, wi.end, CloseCurlyBracket);
    } else {
      var n';
      n', wr := BodySound(t, wi.end);
      n := n' + 1;
    }
    w := BodyJoin(t, k, n, wi, wr);
  }

  /** What BodySound finds: `n` > 0 instructions and a '}' that spell the body BodyAt parses. */
  predicate BodyWalk(t: Table, k: nat, n: nat, w: Walked)
    requires WellFormed(t) && k < |t|
  {
    && 0 < n && Walk(t, k, BodyKinds(n)) == Some(w) && Assignments(w.lits, n).Some?
    && BodyAt(t, k) == Success(Parsed(Assignments(w.lits, n).value, w.end))
  }

  /** The inductive step of BodySound: an instruction in front of the rest of the body. */
  lemma BodyJoin(t: Table, k: nat, n: nat, wi: Walked, wr: Walked) returns (w: Walked)
    requires WellFormed(t) && k < |t| && 0 < n
    requires Walk(t, k, InstrKinds) == Some(wi) && InstrOf(wi.lits).Some? && wi.end < |t|
    requires Walk(t, wi.end, BodyKinds(n - 1)) == Some(wr)
    requires n == 1 ==> BodyAt(t, k) == Success(Parsed([InstrOf(wi.lits).value], wr.end))
    requires 1 < n ==> BodyWalk(t, wi.end, n - 1, wr)
    requires 1 < n ==> BodyAt(t, k) == Prepend([InstrOf(wi.lits).value], BodyAt(t, wi.end))
    ensures BodyWalk(t, k, n, w)
  {
    var i := InstrOf(wi.lits).value;
    if n == 1 {
      assert [i] + [] == [i];
    }
    WalkJoin(t, k, InstrKinds, BodyKinds(n - 1), wi, wr);
    AssignmentsCons(wi.lits, wr.lits, n);
    w := Walked(wi.lits + wr.lits, wr.end);
  }

  /** The five kinds of a head in a row are the head HeaderAt parses. */
  lemma HeaderComplete(t: Table, k: nat, w: Walked)
    requires WellFormed(t) && k < |t| && Walk(t, k, HeadKinds) == Some(w)
    ensures HeaderAt(t, k) == Success(Parsed(w.lits[1], w.end))
  {
    assert HeadKinds[1..][1..][1..][1..][1..] == [];
  }

  /** Conversely, a head HeaderAt parses is those five kinds in a row. */
  lemma HeaderSound(t: Table, k: nat) returns (w: Walked)
    requires WellFormed(t) && k < |t| && HeaderAt(t, k).Success?
    ensures Walk(t, k, HeadKinds) == Some(w)
    ensures HeaderAt(t, k) == Success(Parsed(w.lits[1], w.end))
  {
    HeaderWalks(t, k);
    w := Walk(t, k, HeadKinds).value;
    HeaderComplete(t, k, w);
  }

  lemma HeaderWalks(t: Table, k: nat)
    requires WellFormed(t) && k < |t| && HeaderAt(t, k).Success?
    ensures Walk(t, k, HeadKinds).Some?
  {
    var v := Expect(t, k, Void, "void").value;
    var name := Expect(t, v.next, Ident, "main").value;
    var open := Expect(t, name.next, OpenParenthesis, "(").value;
    var close := Expect(t, open.next, CloseParenthesis, ")").value;
    var curly := Expect(t, close.next, OpenCurlyBracket, "{").value;
    WalkCons(t, close.next, OpenCurlyBracket, []);
    WalkCons(t, open.next, CloseParenthesis, [OpenCurlyBracket] + []);
    WalkCons(t, name.next, OpenParenthesis, [CloseParenthesis] + ([OpenCurlyBracket] + []));
    WalkCons(t, v.next, Ident, [OpenParenthesis] + ([CloseParenthesis] + ([OpenCurlyBracket] + [])));
    WalkCons(t, k, Void, [Ident] + ([OpenParenthesis] + ([CloseParenthesis] + ([OpenCurlyBracket] + []))));
    assert [Void] + ([Ident] + ([OpenParenthesis] + ([CloseParenthesis] + ([OpenCurlyBracket] + [])))) == HeadKinds;
  }

  /** A token of the first kind in front of a walk along the rest is a walk along all of them. */
  lemma WalkCons(t: Table, k: nat, kind: TokenKind, rest: seq<TokenKind>)
    requires k < |t| && t[k].Success? && t[k].value.tok == kind && Walk(t, t[k].value.next, rest).Some?
    ensures Walk(t, k, [kind] + rest).Some?
  {
    assert ([kind] + rest)[0] == kind && ([kind] + rest)[1..] == rest;
  }

  /** Every token sequence `void Ident ( ) { (Ident = Number ;)+ }` whose numbers Atoi accepts
      parses: to the one function it spells, with the cursor after the '}'. */
  lemma ParseComplete(t: Table, k: nat, n: nat, w: Walked)
    requires WellFormed(t) && k < |t| && 0 < n
    requires Walk(t, k, ProgramKinds(n)) == Some(w) && Assignments(w.lits[5..], n).Some?
    ensures ParseAt(t, k) == Success(Parsed([Function(w.lits[1], Assignments(w.lits[5..], n).value)], w.end))
  {
    var wh, wb := WalkSplit(t, k, HeadKinds, BodyKinds(n));
    assert |wh.lits| == 5 && w.lits == wh.lits + wb.lits;
    assert w.lits[5..] == wb.lits && w.lits[1] == wh.lits[1];
    HeaderComplete(t, k, wh);
    BodyComplete(t, wh.end, n, wb);
    ParseOf(t, k, Parsed(w.lits[1], wh.end), Parsed(Assignments(w.lits[5..], n).value, w.end));
  }

  /** Parse2 is its head followed by its body, and so is the function Parse2 builds by appending
      the body's instructions to a function with none. */
  lemma ParseOf(t: Table, k: nat, head: Parsed<string>, body: Parsed<seq<Instruction>>)
    requires WellFormed(t) && k < |t| && HeaderAt(t, k) == Success(head)
    requires head.next < |t| && BodyAt(t, head.next) == Success(body)
    ensures ParseAt(t, k) == Success(Parsed([Function(head.value, body.value)], body.next))
    ensures ParseAt(t, k) == Success(Parsed([Function(head.value, [] + body.value)], body.next))
  {
    assert [] + body.value == body.value;
  }

  /** Conversely, Parse2 succeeds only on such a token sequence, and returns the function it
      spells. */
  lemma ParseSound(t: Table, k: nat) returns (n: nat, w: Walked)
    requires WellFormed(t) && k < |t| && ParseAt(t, k).Success?
    ensures 0 < n && Walk(t, k, ProgramKinds(n)) == Some(w) && Assignments(w.lits[5..], n).Some?
    ensures ParseAt(t, k) == Success(Parsed([Function(w.lits[1], Assignments(w.lits[5..], n).value)], w.end))
  {
    var wh := HeaderSound(t, k);
    var wb;
    n, wb := BodySound(t, wh.end);
    assert BodyWalk(t, wh.end, n, wb);
    WalkJoin(t, k, HeadKinds, BodyKinds(n), wh, wb);
    w := Walked(wh.lits + wb.lits, wb.end);
    assert w.lits[5..] == wb.lits && w.lits[1] == wh.lits[1];
  }

  // ---------------------------------------------------------------- how Parse2 fails

  /** The names the head's errors give the five tokens they expect. */
  const HeadNames: seq<string> := ["void", "main", "(", ")", "{"]

  /** The first token of the head that has the wrong kind aborts the parse with an error naming
      it, and a scanner failure there is passed on; there is no partial result. */
  lemma HeadMismatch(t: Table, k: nat, j: nat, w: Walked)
    requires WellFormed(t) && k < |t| && j < 5
    requires Walk(t, k, HeadKinds[..j]) == Some(w) && w.end < |t|
    requires t[w.end].Failure? || t[w.end].value.tok != HeadKinds[j]
    ensures ParseAt(t, k) == match t[w.end]
                             case Failure(e) => Failure(ScanFailed(e))
                             case Success(lx) => Failure(Unexpected(lx.lit, HeadNames[j]))
  {
    HeaderMismatch(t, k, j, w);
  }

  lemma HeaderMismatch(t: Table, k: nat, j: nat, w: Walked)
    requires WellFormed(t) && k < |t| && j < 5
    requires Walk(t, k, HeadKinds[..j]) == Some(w) && w.end < |t|
    requires t[w.end].Failure? || t[w.end].value.tok != HeadKinds[j]
    ensures HeaderAt(t, k) == match t[w.end]
                              case Failure(e) => Failure(ScanFailed(e))
                              case Success(lx) => Failure(Unexpected(lx.lit, HeadNames[j]))
  {
    if j == 0 {
      assert HeadKinds[..0] == [];
    } else if j == 1 {
      assert HeadKinds[..1] == [Void] + [];
      var m1, u1 := WalkHead(t, k, Void, [], w);
    } else if j == 2 {
      assert HeadKinds[..2] == [Void] + [Ident] && [Ident] == [Ident] + [];
      var m1, u1 := WalkHead(t, k, Void, [Ident], w);
      var m2, u2 := WalkHead(t, m1, Ident, [], u1);
    } else if j == 3 {
      var m1, m2 := HeadPrefix3(t, k, w);
    } else {
      var m1, m2, m3 := HeadPrefix4(t, k, w);
    }
  }

  /** The head's first three tokens, one at a time. */
  lemma HeadPrefix3(t: Table, k: nat, w: Walked) returns (m1: nat, m2: nat)
    requires Walk(t, k, HeadKinds[..3]) == Some(w)
    ensures k < |t| && t[k].Success? && t[k].value.tok == Void && t[k].value.next == m1
    ensures m1 < |t| && t[m1].Success? && t[m1].value.tok == Ident && t[m1].value.next == m2
    ensures m2 < |t| && t[m2].Success? && t[m2].value.tok == OpenParenthesis && t[m2].value.next == w.end
  {
    assert HeadKinds[..3] == [Void] + [Ident, OpenParenthesis];
    assert [Ident, OpenParenthesis] == [Ident] + [OpenParenthesis] && [OpenParenthesis] == [OpenParenthesis] + [];
    var u1, u2, u3;
    m1, u1 := WalkHead(t, k, Void, [Ident, OpenParenthesis], w);
    m2, u2 := WalkHead(t, m1, Ident, [OpenParenthesis], u1);
    var m3;
    m3, u3 := WalkHead(t, m2, OpenParenthesis, [], u2);
  }

  /** The head's first four tokens, one at a time. */
  lemma HeadPrefix4(t: Table, k: nat, w: Walked) returns (m1: nat, m2: nat, m3: nat)
    requires Walk(t, k, HeadKinds[..4]) == Some(w)
    ensures k < |t| && t[k].Success? && t[k].value.tok == Void && t[k].value.next == m1
    ensures m1 < |t| && t[m1].Success? && t[m1].value.tok == Ident && t[m1].value.next == m2
    ensures m2 < |t| && t[m2].Success? && t[m2].value.tok == OpenParenthesis && t[m2].value.next == m3
    ensures m3 < |t| && t[m3].Success? && t[m3].value.tok == CloseParenthesis && t[m3].value.next == w.end
  {
    assert HeadKinds[..4] == HeadKinds[..3] + [CloseParenthesis];
    var w3, w4 := WalkSplit(t, k, HeadKinds[..3], [CloseParenthesis]);
    m1, m2 := HeadPrefix3(t, k, w3);
    m3 := w3.end;
    WalkOne(t, w3.end, CloseParenthesis);
  }

  /** The first step of a walk. */
  lemma WalkHead(t: Table, k: nat, kind: TokenKind, rest: seq<TokenKind>, w: Walked) returns (m: nat, u: Walked)
    requires Walk(t, k, [kind] + rest) == Some(w)
    ensures k < |t| && t[k].Success? && t[k].value.tok == kind && m == t[k].value.next
    ensures Walk(t, m, rest) == Some(u) && u.end == w.end && w.lits == [t[k].value.lit] + u.lits
  {
    assert ([kind] + rest)[0] == kind && ([kind] + rest)[1..] == rest;
    m := t[k].value.next;
    u := Walk(t, m, rest).value;
  }

  /** The names the instruction's errors give the four tokens they expect. */
  const InstrNames: seq<string> := ["identifier", "=", "number", "';'"]

  /** The first token of an instruction that has the wrong kind, or that the scanner failed on,
      aborts the instruction with an error naming the expected token. A `;` is only looked for once
      the number has converted. */
  lemma InstrMismatch(t: Table, k: nat, j: nat, w: Walked)
    requires WellFormed(t) && k < |t| && j < 4
    requires Walk(t, k, InstrKinds[..j]) == Some(w) && w.end < |t|
    requires t[w.end].Failure? || t[w.end].value.tok != InstrKinds[j]
    requires j == 3 ==> Atoi(w.lits[2]).Some?
    ensures InstrAt(t, k) == match t[w.end]
                             case Failure(e) => Failure(ScanFailed(e))
                             case Success(lx) => Failure(Unexpected(lx.lit, InstrNames[j]))
  {
    if j == 0 {
      assert InstrKinds[..0] == [];
    } else if j == 1 {
      assert InstrKinds[..1] == [Ident] + [];
      var m1, u1 := WalkHead(t, k, Ident, [], w);
    } else if j == 2 {
      assert InstrKinds[..2] == [Ident] + [Equals] && [Equals] == [Equals] + [];
      var m1, u1 := WalkHead(t, k, Ident, [Equals], w);
      var m2, u2 := WalkHead(t, m1, Equals, [], u1);
    } else {
      var m1, m2 := InstrPrefix3(t, k, w);
    }
  }

  /** A NUMBER that Atoi rejects aborts the instruction before its `;` is looked for. */
  lemma InstrBadNumber(t: Table, k: nat, w: Walked)
    requires WellFormed(t) && k < |t|
    requires Walk(t, k, InstrKinds[..3]) == Some(w) && Atoi(w.lits[2]).None?
    ensures InstrAt(t, k) == Failure(Unexpected(w.lits[2], "number"))
  {
    var m1, m2 := InstrPrefix3(t, k, w);
  }

  /** The instruction's first three tokens, one at a time. */
  lemma InstrPrefix3(t: Table, k: nat, w: Walked) returns (m1: nat, m2: nat)
    requires Walk(t, k, InstrKinds[..3]) == Some(w)
    ensures k < |t| && t[k].Success? && t[k].value.tok == Ident && t[k].value.next == m1
    ensures m1 < |t| && t[m1].Success? && t[m1].value.tok == Equals && t[m1].value.next == m2
    ensures m2 < |t| && t[m2].Success? && t[m2].value.tok == Number && t[m2].value.next == w.end
    ensures w.lits[2] == t[m2].value.lit
  {
    assert InstrKinds[..3] == [Ident] + [Equals, Number];
    assert [Equals, Number] == [Equals] + [Number] && [Number] == [Number] + [];
    var u1, u2, u3;
    m1, u1 := WalkHead(t, k, Ident, [Equals, Number], w);
    m2, u2 := WalkHead(t, m1, Equals, [Number], u1);
    var m3;
    m3, u3 := WalkHead(t, m2, Number, [], u2);
  }

  /** The kinds of `n` instructions. */
  function InstrsKinds(n: nat): (kinds: seq<TokenKind>)
    ensures |kinds| == 4 * n
  {
    if n == 0 then [] else InstrKinds + InstrsKinds(n - 1)
  }

  /** What BodyFirstFailure finds: `n` instructions that parse, none of them followed by '}', and
      then an instruction that fails with the body's error. */
  predicate FailsAfter(t: Table, k: nat, n: nat, w: Walked)
    requires WellFormed(t) && k < |t|
  {
    && Walk(t, k, InstrsKinds(n)) == Some(w) && Assignments(w.lits, n).Some? && w.end < |t|
    && (0 < n && t[w.end].Success? ==> t[w.end].value.tok != CloseCurlyBracket)
    && InstrAt(t, w.end).Failure? && BodyAt(t, k) == Failure(InstrAt(t, w.end).error)
  }

  /** A body that fails fails with the error of its first failing instruction: the body loop has no
      recovery and no partial result. A scanner failure on the token after an instruction is the
      failure of the next instruction's identifier. */
  lemma {:induction false} BodyFirstFailure(t: Table, k: nat) returns (n: nat, w: Walked)
    requires WellFormed(t) && k < |t| && BodyAt(t, k).Failure?
    ensures FailsAfter(t, k, n, w)
    decreases |t| - k
  {
    if InstrAt(t, k).Failure? {
      n, w := 0, Walked([], k);
      return;
    }
    var wi := InstrSound(t, k);
    BodyCons(t, k, wi);
    var i := InstrOf(wi.lits).value;
    match t[wi.end]
    case Failure(e) =>
      n, w := 1, wi;
      assert InstrsKinds(1) == InstrKinds + [] == InstrKinds;
      assert Assignments(wi.lits, 1) == Some([i] + []);
    case Success(peek) =>
      var n', wr := BodyFirstFailure(t, wi.end);
      n := n' + 1;
      w := FailJoin(t, k, n, wi, wr);
  }

  /** The inductive step of BodyFirstFailure: an instruction in front of the failing rest. */
  lemma FailJoin(t: Table, k: nat, n: nat, wi: Walked, wr: Walked) returns (w: Walked)
    requires WellFormed(t) && k < |t| && 0 < n
    requires Walk(t, k, InstrKinds) == Some(wi) && InstrOf(wi.lits).Some? && wi.end < |t|
    requires FailsAfter(t, wi.end, n - 1, wr)
    requires BodyAt(t, k) == Prepend([InstrOf(wi.lits).value], BodyAt(t, wi.end))
    requires t[wi.end].Success? && t[wi.end].value.tok != CloseCurlyBracket
    ensures FailsAfter(t, k, n, w)
  {
    WalkJoin(t, k, InstrKinds, InstrsKinds(n - 1), wi, wr);
    AssignmentsCons(wi.lits, wr.lits, n);
    w := Walked(wi.lits + wr.lits, wr.end);
  }

  /** Parse2 reports the error of the body's first failing instruction under "expected
      instruction: ", unless the scanner failed. */
  lemma BodyErrorReported(t: Table, k: nat) returns (n: nat, w: Walked)
    requires WellFormed(t) && k < |t| && HeaderAt(t, k).Success?
    requires BodyAt(t, HeaderAt(t, k).value.next).Failure?
    ensures FailsAfter(t, HeaderAt(t, k).value.next, n, w)
    ensures var e := InstrAt(t, w.end).error;
      ParseAt(t, k) == Failure(if e.ScanFailed? then e else InInstruction(e))
  {
    n, w := BodyFirstFailure(t, HeaderAt(t, k).value.next);
  }

  /** An empty body `{}` is rejected: an identifier is demanded before '}' is looked for. */
  lemma EmptyBodyRejected(t: Table, k: nat)
    requires WellFormed(t) && k < |t| && HeaderAt(t, k).Success?
    requires var m := HeaderAt(t, k).value.next; t[m].Success? && t[m].value.tok == CloseCurlyBracket
    ensures ParseAt(t, k) == Failure(InInstruction(Unexpected(t[HeaderAt(t, k).value.next].value.lit, "identifier")))
  {
  }
}
