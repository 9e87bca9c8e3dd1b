/**
 * The pipeline on the first program of hephaestus.org/parser_test.go: scanning, parsing and
 * running `void main () { x=5;y=18;}`, and parsing `void main(){}`, whose empty body is rejected.
 */
module Walkthrough {
  import opened Wrappers
  import opened Tokens
  import opened Lexer
  import opened Ast
  import opened Parsing
  import opened Interpreting

  const Demo: string := "void main () { x=5;y=18;}"

  // ---------------------------------------------------------------- helpers

  /** The end of a run, given where it stops. */
  lemma {:induction false} RunEndIs(input: string, k: nat, kind: RunKind, e: nat)
    requires k <= e <= |input|
    requires forall i | k <= i < e :: InRun(kind, input[i])
    requires e == |input| || !InRun(kind, input[e])
    ensures RunEnd(input, k, kind) == e
    decreases e - k
  {
    if k < e {
      RunEndIs(input, k + 1, kind, e);
    }
  }

  /** One blank at `k` and then the token at `k + 1`: the significant token is the latter. */
  lemma SkipBlank(input: string, k: nat)
    requires NoNul(input) && k + 1 < |input| && IsWhitespace(input[k]) && !IsWhitespace(input[k + 1])
    ensures SignificantAt(input, k) == ScanAt(input, k + 1)
  {
    RunEndIs(input, k + 1, Blank, k + 1);
  }

  /** A word from `k` to `e`. */
  lemma WordAt(input: string, k: nat, e: nat)
    requires NoNul(input) && k < e <= |input| && IsLetter(input[k])
    requires forall i | k < i < e :: InRun(Word, input[i])
    requires e == |input| || !InRun(Word, input[e])
    ensures ScanAt(input, k) == Success(Lexeme(KeywordOrIdent(input[k..e]), input[k..e], e))
  {
    RunEndIs(input, k + 1, Word, e);
  }

  /** A number from `k` to `e`. */
  lemma DigitsAt(input: string, k: nat, e: nat)
    requires NoNul(input) && k < e <= |input| && IsDigit(input[k])
    requires forall i | k < i < e :: IsDigit(input[i])
    requires e == |input| || !IsDigit(input[e])
    ensures ScanAt(input, k) == Success(Lexeme(Number, input[k..e], e))
  {
    RunEndIs(input, k + 1, Digits, e);
  }

  // ---------------------------------------------------------------- the tokens of Demo

  lemma DemoNoNul(input: string)
    requires input == Demo
    ensures NoNul(input)
  {
  }

  lemma DemoVoid(input: string)
    requires NoNul(input) && input == Demo
    ensures ScanAt(input, 0) == Success(Lexeme(Void, "void", 4))
  {
    WordAt(input, 0, 4);
    assert input[0..4] == "void";
  }

  /** "main" is no keyword. */
  lemma MainIsIdent()
    ensures KeywordOrIdent("main") == Ident
  {
    assert "main"[0] != "void"[0] && "main"[0] != "int"[0] && "main"[0] != "string"[0];
    assert "main"[0] != "boolean"[0] && "main"[0] != "true"[0] && "main"[0] != "false"[0];
  }

  lemma DemoMain(input: string)
    requires NoNul(input) && input == Demo
    ensures ScanAt(input, 5) == Success(Lexeme(Ident, "main", 9))
  {
    WordAt(input, 5, 9);
    assert input[5..9] == "main";
    MainIsIdent();
  }

  lemma DemoX(input: string)
    requires NoNul(input) && input == Demo
    ensures ScanAt(input, 15) == Success(Lexeme(Ident, "x", 16))
  {
    WordAt(input, 15, 16);
    assert input[15..16] == "x";
  }

  lemma DemoY(input: string)
    requires NoNul(input) && input == Demo
    ensures ScanAt(input, 19) == Success(Lexeme(Ident, "y", 20))
  {
    WordAt(input, 19, 20);
    assert input[19..20] == "y";
  }

  lemma DemoFive(input: string)
    requires NoNul(input) && input == Demo
    ensures ScanAt(input, 17) == Success(Lexeme(Number, "5", 18))
  {
    DigitsAt(input, 17, 18);
    assert input[17..18] == "5";
  }

  lemma DemoEighteen(input: string)
    requires NoNul(input) && input == Demo
    ensures ScanAt(input, 21) == Success(Lexeme(Number, "18", 23))
  {
    DigitsAt(input, 21, 23);
    assert input[21..23] == "18";
  }

  lemma DemoEquals(input: string)
    requires NoNul(input) && input == Demo
    ensures ScanAt(input, 16) == Success(Lexeme(Equals, "=", 17))
    ensures ScanAt(input, 20) == Success(Lexeme(Equals, "=", 21))
  {
  }

  /** The blanks of Demo stand at 4, 9, 12 and 14, each before a token. */
  lemma DemoBlank(input: string, k: nat)
    requires NoNul(input) && input == Demo && k in {4, 9, 12, 14}
    ensures SignificantAt(input, k) == ScanAt(input, k + 1)
  {
    SkipBlank(input, k);
  }

  /** The one-rune tokens of Demo. */
  lemma DemoPunctuation(input: string, k: nat)
    requires NoNul(input) && input == Demo && k in {10, 11, 13, 18, 23, 24}
    ensures k == 10 ==> ScanAt(input, k) == Success(Lexeme(OpenParenthesis, "(", 11))
    ensures k == 11 ==> ScanAt(input, k) == Success(Lexeme(CloseParenthesis, ")", 12))
    ensures k == 13 ==> ScanAt(input, k) == Success(Lexeme(OpenCurlyBracket, "{", 14))
    ensures k == 18 || k == 23 ==> ScanAt(input, k) == Success(Lexeme(Semicolon, ";", k + 1))
    ensures k == 24 ==> ScanAt(input, k) == Success(Lexeme(CloseCurlyBracket, "}", 25))
  {
    PunctuationToken(input, k);
  }

  // ---------------------------------------------------------------- parsing Demo

  /** The significant tokens of Demo, on any table that has them. */
  predicate DemoTokens(t: Table)
    requires WellFormed(t) && 25 < |t|
  {
    && t[0] == Success(Lexeme(Void, "void", 4))
    && t[4] == Success(Lexeme(Ident, "main", 9))
    && t[9] == Success(Lexeme(OpenParenthesis, "(", 11))
    && t[11] == Success(Lexeme(CloseParenthesis, ")", 12))
    && t[12] == Success(Lexeme(OpenCurlyBracket, "{", 14))
    && t[14] == Success(Lexeme(Ident, "x", 16))
    && t[16] == Success(Lexeme(Equals, "=", 17))
    && t[17] == Success(Lexeme(Number, "5", 18))
    && t[18] == Success(Lexeme(Semicolon, ";", 19))
    && t[19] == Success(Lexeme(Ident, "y", 20))
    && t[20] == Success(Lexeme(Equals, "=", 21))
    && t[21] == Success(Lexeme(Number, "18", 23))
    && t[23] == Success(Lexeme(Semicolon, ";", 24))
    && t[24] == Success(Lexeme(CloseCurlyBracket, "}", 25))
  }

  lemma DemoTable(input: string)
    requires input == Demo
    ensures NoNul(input) && WellFormed(SignificantTable(input)) && |SignificantTable(input)| == 26
    ensures DemoTokens(SignificantTable(input))
  {
    DemoNoNul(input);
    DemoVoid(input);
    DemoMain(input);
    DemoX(input);
    DemoY(input);
    DemoFive(input);
    DemoEighteen(input);
    DemoEquals(input);
    DemoBlank(input, 4);
    DemoBlank(input, 9);
    DemoBlank(input, 12);
    DemoBlank(input, 14);
    DemoPunctuation(input, 10);
    DemoPunctuation(input, 11);
    DemoPunctuation(input, 13);
    DemoPunctuation(input, 18);
    DemoPunctuation(input, 23);
    DemoPunctuation(input, 24);
    var t := SignificantTable(input);
    assert t[0] == Success(Lexeme(Void, "void", 4));
  }

  lemma AtoiSmall()
    ensures Atoi("5") == Some(5) && Atoi("18") == Some(18)
  {
    assert "5"[..0] == "" && "18"[..1] == "1" && "1"[..0] == "";
  }

  lemma DemoInstructions(t: Table)
    requires WellFormed(t) && 25 < |t| && DemoTokens(t)
    ensures InstrAt(t, 14) == Success(Parsed(Instruction("x", IntLit(5)), 19))
    ensures InstrAt(t, 19) == Success(Parsed(Instruction("y", IntLit(18)), 24))
  {
    AtoiSmall();
  }

  lemma DemoHeader(t: Table)
    requires WellFormed(t) && 25 < |t| && DemoTokens(t)
    ensures HeaderAt(t, 0) == Success(Parsed("main", 14))
  {
  }

  lemma DemoBody(t: Table)
    requires WellFormed(t) && 25 < |t| && DemoTokens(t)
    ensures BodyAt(t, 14) == Success(Parsed([Instruction("x", IntLit(5)), Instruction("y", IntLit(18))], 25))
  {
    DemoInstructions(t);
    var x := Instruction("x", IntLit(5));
    var y := Instruction("y", IntLit(18));
    BodyStep(t, 19);
    assert BodyAt(t, 19) == Success(Parsed([y], 25));
    BodyStep(t, 14);
    assert [x] + [y] == [x, y];
  }

  lemma DemoParse(t: Table)
    requires WellFormed(t) && 25 < |t| && DemoTokens(t)
    ensures ParseAt(t, 0) ==
      Success(Parsed([Function("main", [Instruction("x", IntLit(5)), Instruction("y", IntLit(18))])], 25))
  {
    DemoHeader(t);
    DemoBody(t);
  }

  /** `void main () { x=5;y=18;}` is the function main with the assignments x = 5 and y = 18, in
      that order, and the parser stops right after the '}' at the end. */
  lemma ParseDemo(input: string)
    requires input == Demo
    ensures NoNul(input)
    ensures ParseText(input) ==
      Success(Parsed([Function("main", [Instruction("x", IntLit(5)), Instruction("y", IntLit(18))])], 25))
  {
    DemoTable(input);
    DemoParse(SignificantTable(input));
  }

  /** Running it gives one table, {x: 5, y: 18}. */
  lemma RunDemo()
    ensures RunAll([Function("main", [Instruction("x", IntLit(5)), Instruction("y", IntLit(18))])])
            == Success([map["x" := 5, "y" := 18]])
  {
    var instructions := [Instruction("x", IntLit(5)), Instruction("y", IntLit(18))];
    var t1: SymbolTable := map["x" := 5];
    var t2 := t1["y" := 18];
    assert Exec(instructions[2..], t2) == Success(t2);
    assert Exec(instructions[1..], t1) == Success(t2);
    assert Exec(instructions, map[]) == Success(t2);
    assert t2 == map["x" := 5, "y" := 18];
    assert [Function("main", instructions)][1..] == [];
    assert [t2] + [] == [t2];
  }

  /** The whole pipeline on Demo: parsed, then run, it gives the one table {x: 5, y: 18}. */
  lemma PipelineDemo(input: string)
    requires input == Demo
    ensures NoNul(input) && ParseText(input).Success?
    ensures RunAll(ParseText(input).value.value) == Success([map["x" := 5, "y" := 18]])
  {
    ParseDemo(input);
    RunDemo();
  }

  // ---------------------------------------------------------------- an empty body

  const EmptyBody: string := "void main(){}"

  lemma EmptyBodyNoNul(input: string)
    requires input == EmptyBody
    ensures NoNul(input)
  {
  }

  lemma EmptyBodyVoid(input: string)
    requires NoNul(input) && input == EmptyBody
    ensures ScanAt(input, 0) == Success(Lexeme(Void, "void", 4))
  {
    WordAt(input, 0, 4);
    assert input[0..4] == "void";
  }

  lemma EmptyBodyBlank(input: string)
    requires NoNul(input) && input == EmptyBody
    ensures SignificantAt(input, 4) == ScanAt(input, 5)
  {
    SkipBlank(input, 4);
  }

  lemma EmptyBodyMain(input: string)
    requires NoNul(input) && input == EmptyBody
    ensures ScanAt(input, 5) == Success(Lexeme(Ident, "main", 9))
  {
    WordAt(input, 5, 9);
    assert input[5..9] == "main";
    MainIsIdent();
  }

  lemma EmptyBodyPunctuation(input: string, k: nat)
    requires NoNul(input) && input == EmptyBody && 9 <= k <= 12
    ensures k == 9 ==> ScanAt(input, k) == Success(Lexeme(OpenParenthesis, "(", 10))
    ensures k == 10 ==> ScanAt(input, k) == Success(Lexeme(CloseParenthesis, ")", 11))
    ensures k == 11 ==> ScanAt(input, k) == Success(Lexeme(OpenCurlyBracket, "{", 12))
    ensures k == 12 ==> ScanAt(input, k) == Success(Lexeme(CloseCurlyBracket, "}", 13))
  {
    PunctuationToken(input, k);
  }

  /** The significant tokens of EmptyBody, on any table that has them. */
  predicate EmptyBodyTable(t: Table)
    requires WellFormed(t) && 13 < |t|
  {
    && t[0] == Success(Lexeme(Void, "void", 4))
    && t[4] == Success(Lexeme(Ident, "main", 9))
    && t[9] == Success(Lexeme(OpenParenthesis, "(", 10))
    && t[10] == Success(Lexeme(CloseParenthesis, ")", 11))
    && t[11] == Success(Lexeme(OpenCurlyBracket, "{", 12))
    && t[12] == Success(Lexeme(CloseCurlyBracket, "}", 13))
  }

  lemma EmptyBodyTokens(input: string)
    requires input == EmptyBody
    ensures NoNul(input) && WellFormed(SignificantTable(input)) && |SignificantTable(input)| == 14
    ensures EmptyBodyTable(SignificantTable(input))
  {
    EmptyBodyNoNul(input);
    EmptyBodyVoid(input);
    EmptyBodyBlank(input);
    EmptyBodyMain(input);
    EmptyBodyPunctuation(input, 9);
    EmptyBodyPunctuation(input, 10);
    EmptyBodyPunctuation(input, 11);
    EmptyBodyPunctuation(input, 12);
  }

  lemma EmptyBodyParse(t: Table)
    requires WellFormed(t) && 13 < |t| && EmptyBodyTable(t)
    ensures ParseAt(t, 0) == Failure(InInstruction(Unexpected("}", "identifier")))
  {
    assert HeaderAt(t, 0) == Success(Parsed("main", 12));
    EmptyBodyRejected(t, 0);
  }

  /** `void main(){}` is rejected: the parser wants an identifier where it finds '}'. */
  lemma ParseEmptyBody(input: string)
    requires input == EmptyBody
    ensures NoNul(input)
    ensures ParseText(input) == Failure(InInstruction(Unexpected("}", "identifier")))
    ensures Message(ParseText(input).error)
      == "expected instruction: " + "found " + "\"}\"" + ", expected " + "identifier"
  {
    EmptyBodyTokens(input);
    EmptyBodyParse(SignificantTable(input));
    EmptyBodyMessage();
  }

  /** The text of that error. */
  lemma EmptyBodyMessage()
    ensures Message(InInstruction(Unexpected("}", "identifier")))
      == "expected instruction: " + "found " + "\"}\"" + ", expected " + "identifier"
  {
    QuotePlain("}");
  }
}
