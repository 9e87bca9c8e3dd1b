/**
 * The tree-walking interpreter of hephaestus.org/interpreter.go.
 *
 * `GetIntValue` is getIntValue: a pure evaluation of an expression against a symbol table. `Exec`
 * and `RunAll` are the specification of the `interpreter` method, and `Interpreter.Interpret` is
 * that method, with its two nested loops, proved against them.
 */
module Interpreting {
  import opened Wrappers
  import opened Ast

  /** A function's variables and their values. */
  type SymbolTable = map<string, int>

  // ---------------------------------------------------------------- expressions

  /** The variables an expression reads, left to right, with repetitions. */
  function Vars(e: Expr): seq<string> {
    match e
    case IntLit(_) => []
    case Var(x) => [x]
    case Binary(_, left, right) => Vars(left) + Vars(right)
    case OtherCode => []
  }

  /** Every variable the expression reads is in the table. */
  predicate Declared(e: Expr, table: SymbolTable) {
    forall x | x in Vars(e) :: x in table
  }

  /** The message for an undeclared variable. */
  function NotDeclared(x: string): string {
    "variable " + x + " not declared"
  }

  /** `n` copies of the "error: " prefix. */
  function Prefixes(n: nat): string {
    if n == 0 then "" else "error: " + Prefixes(n - 1)
  }

  /** getIntValue: an integer literal is its value, a variable its table entry, an addition or a
      subtraction the sum or difference of its two sides (left first; a failing side's error is
      passed on under "error: "), and any other code 0. It fails exactly when a variable it reads
      is missing from the table. */
  function GetIntValue(e: Expr, table: SymbolTable): (r: Result<int, string>)
    ensures r.Success? <==> Declared(e, table)
  {
    match e
    case IntLit(v) => Success(v)
    case Var(x) => if x in table then Success(table[x]) else Failure(NotDeclared(x))
    case Binary(op, left, right) =>
      (match GetIntValue(left, table)
       case Failure(err) => Failure("error: " + err)
       case Success(val) =>
         match GetIntValue(right, table)
         case Failure(err2) => Failure("error: " + err2)
         case Success(val2) => Success(if op == Plus then val + val2 else val - val2))
    case OtherCode => Success(0)
  }

  // ---------------------------------------------------------------- running functions

  /** The inner loop of `interpreter`: each instruction's value, computed in the table built so far,
      is stored under its variable; the first failure stops the loop with "error: " in front. */
  function Exec(instructions: seq<Instruction>, table: SymbolTable): (r: Result<SymbolTable, string>)
    ensures r.Success? ==> table.Keys <= r.value.Keys
    ensures r.Failure? ==> |r.error| >= 7 && r.error[..7] == "error: "
  {
    if instructions == [] then Success(table)
    else
      var instr := instructions[0];
      match GetIntValue(instr.value, table)
      case Failure(err) => Failure("error: " + err)
      case Success(val) => Exec(instructions[1..], table[instr.variable := val])
  }

  /** `interpreter`: one table per function, each run from an empty table, in order; the first
      failure drops every table. */
  function RunAll(functions: seq<Function>): (r: Result<seq<SymbolTable>, string>)
    ensures r.Success? ==> |r.value| == |functions|
    ensures r.Failure? ==> |r.error| >= 7 && r.error[..7] == "error: "
  {
    if functions == [] then Success([])
    else
      match Exec(functions[0].instructions, map[])
      case Failure(err) => Failure(err)
      case Success(table) =>
        match RunAll(functions[1..])
        case Failure(err) => Failure(err)
        case Success(tables) => Success([table] + tables)
  }

  /** Tables computed so far, in front of what the remaining functions yield. */
  function Prepend(done: seq<SymbolTable>, r: Result<seq<SymbolTable>, string>): Result<seq<SymbolTable>, string> {
    match r
    case Success(tables) => Success(done + tables)
    case Failure(err) => Failure(err)
  }

  class Interpreter {
    const functions: seq<Function>

    /** NewInterpreter. */
    constructor (functions: seq<Function>)
      ensures this.functions == functions
    {
      this.functions := functions;
    }

    /** interpreter: the nested loops over functions and their instructions. */
    method Interpret() returns (r: Result<seq<SymbolTable>, string>)
      ensures r == RunAll(functions)
    {
      var res: seq<SymbolTable> := [];
      PrependNothing(RunAll(functions));
      for i := 0 to |functions|
        invariant RunAll(functions) == Prepend(res, RunAll(functions[i..]))
      {
        var fun := functions[i];
        var symbolTable: SymbolTable := map[];
        for j := 0 to |fun.instructions|
          invariant Exec(fun.instructions, map[]) == Exec(fun.instructions[j..], symbolTable)
        {
          var instruction := fun.instructions[j];
          var val := GetIntValue(instruction.value, symbolTable);
          if val.Failure? {
            PrependFailure(res, RunAll(functions[i..]));
            return Failure("error: " + val.error);
          }
          assert fun.instructions[j..][1..] == fun.instructions[j + 1..];
          symbolTable := symbolTable[instruction.variable := val.value];
        }
        assert fun.instructions[|fun.instructions|..] == [];
        assert functions[i..][1..] == functions[i + 1..];
        PrependTwice(res, symbolTable, RunAll(functions[i + 1..]));
        res := res + [symbolTable];
      }
      assert functions[|functions|..] == [];
      assert res + [] == res;
      return Success(res);
    }
  }

  lemma PrependNothing(r: Result<seq<SymbolTable>, string>)
    ensures Prepend([], r) == r
  {
    if r.Success? {
      assert [] + r.value == r.value;
    }
  }

  lemma PrependFailure(done: seq<SymbolTable>, r: Result<seq<SymbolTable>, string>)
    requires r.Failure?
    ensures Prepend(done, r) == r
  {
  }

  lemma PrependTwice(done: seq<SymbolTable>, table: SymbolTable, r: Result<seq<SymbolTable>, string>)
    ensures Prepend(done, Prepend([table], r)) == Prepend(done + [table], r)
  {
    if r.Success? {
      assert done + ([table] + r.value) == done + [table] + r.value;
    }
  }

  // ---------------------------------------------------------------- properties of getIntValue

  /** A failure names the first variable, left to right, that is missing from the table, under one
      "error: " per addition or subtraction it passed through (none when the expression is that
      variable). */
  lemma {:induction false} UndeclaredReported(e: Expr, table: SymbolTable) returns (i: nat, n: nat)
    requires GetIntValue(e, table).Failure?
    ensures FirstMissing(e, table, i) && n == FailDepth(e, table)
    ensures GetIntValue(e, table).error == Prefixes(n) + NotDeclared(Vars(e)[i])
    ensures n == 0 <==> e.Var?
  {
    match e
    case Var(_) =>
      i, n := 0, 0;
    case Binary(op, left, right) =>
      if GetIntValue(left, table).Failure? {
        var i', n' := UndeclaredReported(left, table);
        ReportedLeft(op, left, right, table, i', n');
        i, n := i', n' + 1;
      } else {
        var i', n' := UndeclaredReported(right, table);
        ReportedRight(op, left, right, table, i', n');
        i, n := |Vars(left)| + i', n' + 1;
      }
  }

  /** The error of a failing side, with its first missing name and its depth. */
  predicate Reported(e: Expr, table: SymbolTable, i: nat, n: nat) {
    && GetIntValue(e, table).Failure? && FirstMissing(e, table, i) && n == FailDepth(e, table)
    && GetIntValue(e, table).error == Prefixes(n) + NotDeclared(Vars(e)[i])
  }

  /** A failing left side is reported one level up, under one more "error: ". */
  lemma ReportedLeft(op: BinaryOp, left: Expr, right: Expr, table: SymbolTable, i: nat, n: nat)
    requires Reported(left, table, i, n)
    ensures Reported(Binary(op, left, right), table, i, n + 1)
  {
    MissingLeft(Vars(left), Vars(right), table, i);
    PrefixesStep(n, NotDeclared(Vars(left)[i]));
  }

  /** A failing right side after a successful left side is reported one level up, under one more
      "error: ", at its index shifted past the left side's variables. */
  lemma ReportedRight(op: BinaryOp, left: Expr, right: Expr, table: SymbolTable, i: nat, n: nat)
    requires GetIntValue(left, table).Success? && Reported(right, table, i, n)
    ensures Reported(Binary(op, left, right), table, |Vars(left)| + i, n + 1)
  {
    MissingRight(Vars(left), Vars(right), table, i);
    PrefixesStep(n, NotDeclared(Vars(right)[i]));
  }

  /** `i` is the first index of `Vars(e)` whose variable is missing from the table. */
  predicate FirstMissing(e: Expr, table: SymbolTable, i: nat) {
    i < |Vars(e)| && Vars(e)[i] !in table && forall x | x in Vars(e)[..i] :: x in table
  }

  /** The number of additions and subtractions on the way from the root of `e` to the first side
      that fails: the left side when it fails, else the right side. */
  function FailDepth(e: Expr, table: SymbolTable): nat {
    match e
    case Binary(_, left, right) =>
      1 + (if GetIntValue(left, table).Failure? then FailDepth(left, table) else FailDepth(right, table))
    case _ => 0
  }

  /** The first missing name of the left part is the first missing name of the whole. */
  lemma MissingLeft(vl: seq<string>, vr: seq<string>, table: SymbolTable, i: nat)
    requires i < |vl| && forall x | x in vl[..i] :: x in table
    ensures (vl + vr)[i] == vl[i] && forall x | x in (vl + vr)[..i] :: x in table
  {
    assert (vl + vr)[..i] == vl[..i];
  }

  /** With every name of the left part present, the first missing name of the right part is the
      first missing name of the whole. */
  lemma MissingRight(vl: seq<string>, vr: seq<string>, table: SymbolTable, i: nat)
    requires (forall x | x in vl :: x in table) && i < |vr| && forall x | x in vr[..i] :: x in table
    ensures (vl + vr)[|vl| + i] == vr[i] && forall x | x in (vl + vr)[..|vl| + i] :: x in table
  {
    assert (vl + vr)[..|vl| + i] == vl + vr[..i];
  }

  lemma PrefixesStep(n: nat, msg: string)
    ensures "error: " + (Prefixes(n) + msg) == Prefixes(n + 1) + msg
  {
  }

  /** Evaluation only reads the table: a table that agrees on every name of a smaller one gives the
      same value for an expression the smaller one can evaluate. */
  lemma {:induction false} GetIntValueExtends(e: Expr, small: SymbolTable, big: SymbolTable)
    requires forall x | x in small :: x in big && big[x] == small[x]
    requires GetIntValue(e, small).Success?
    ensures GetIntValue(e, big) == GetIntValue(e, small)
  {
    if e.Binary? {
      GetIntValueExtends(e.left, small, big);
      GetIntValueExtends(e.right, small, big);
    }
  }

  /** The leaves: a literal is its value and any other code is 0 whatever the table holds; a
      variable is its entry, or the "not declared" error when it has none. */
  lemma LeafValues(v: int, x: string, table: SymbolTable)
    ensures GetIntValue(IntLit(v), table) == Success(v)
    ensures GetIntValue(OtherCode, table) == Success(0)
    ensures GetIntValue(Var(x), table) == if x in table then Success(table[x]) else Failure("variable " + x + " not declared")
  {
  }

  /** With both sides computed, an addition is their sum and a subtraction their difference. */
  lemma BinaryValue(op: BinaryOp, left: Expr, right: Expr, table: SymbolTable)
    requires GetIntValue(left, table).Success? && GetIntValue(right, table).Success?
    ensures var a, b := GetIntValue(left, table).value, GetIntValue(right, table).value;
      GetIntValue(Binary(op, left, right), table) == Success(if op == Plus then a + b else a - b)
  {
  }

  /** When the left side fails, the right side plays no part in the result. */
  lemma LeftSideFirst(op: BinaryOp, left: Expr, right: Expr, table: SymbolTable)
    requires GetIntValue(left, table).Failure?
    ensures GetIntValue(Binary(op, left, right), table) == Failure("error: " + GetIntValue(left, table).error)
  {
  }

  /** When the left side succeeds and the right side fails, the right side's error is the result,
      under one more "error: ". */
  lemma RightSideSecond(op: BinaryOp, left: Expr, right: Expr, table: SymbolTable)
    requires GetIntValue(left, table).Success? && GetIntValue(right, table).Failure?
    ensures GetIntValue(Binary(op, left, right), table) == Failure("error: " + GetIntValue(right, table).error)
  {
  }

  // ---------------------------------------------------------------- properties of the inner loop

  /** The variables a list of instructions assigns. */
  function Assigned(instructions: seq<Instruction>): set<string> {
    set i | 0 <= i < |instructions| :: instructions[i].variable
  }

  /** Running two lists of instructions one after the other is running their concatenation. */
  lemma {:induction false} ExecAppend(a: seq<Instruction>, b: seq<Instruction>, table: SymbolTable)
    ensures Exec(a + b, table) == match Exec(a, table)
                                  case Success(t) => Exec(b, t)
                                  case Failure(err) => Failure(err)
  {
    if a == [] {
      assert a + b == b;
    } else {
      assert (a + b)[0] == a[0];
      assert (a + b)[1..] == a[1..] + b;
      match GetIntValue(a[0].value, table)
      case Failure(_) =>
      case Success(val) => ExecAppend(a[1..], b, table[a[0].variable := val]);
    }
  }

  /** The final table holds exactly the names of the starting table and the assigned ones. */
  lemma {:induction false} ExecKeys(instructions: seq<Instruction>, table: SymbolTable)
    requires Exec(instructions, table).Success?
    ensures Exec(instructions, table).value.Keys == table.Keys + Assigned(instructions)
  {
    if instructions != [] {
      var instr := instructions[0];
      var val := GetIntValue(instr.value, table).value;
      ExecKeys(instructions[1..], table[instr.variable := val]);
      assert Assigned(instructions) == {instr.variable} + Assigned(instructions[1..]) by {
        forall x | x in Assigned(instructions)
          ensures x in {instr.variable} + Assigned(instructions[1..])
        {
          var i :| 0 <= i < |instructions| && instructions[i].variable == x;
          if 0 < i {
            assert instructions[1..][i - 1] == instructions[i];
          }
        }
        forall x | x in Assigned(instructions[1..])
          ensures x in Assigned(instructions)
        {
          var i :| 0 <= i < |instructions[1..]| && instructions[1..][i].variable == x;
          assert instructions[i + 1] == instructions[1..][i];
        }
      }
    }
  }

  /** A name no instruction assigns keeps its starting entry, or its absence. */
  lemma {:induction false} ExecUntouched(instructions: seq<Instruction>, table: SymbolTable, x: string)
    requires Exec(instructions, table).Success?
    requires forall i | 0 <= i < |instructions| :: instructions[i].variable != x
    ensures x in Exec(instructions, table).value <==> x in table
    ensures x in table ==> Exec(instructions, table).value[x] == table[x]
  {
    if instructions != [] {
      var instr := instructions[0];
      var val := GetIntValue(instr.value, table).value;
      assert forall i | 0 <= i < |instructions[1..]| :: instructions[1..][i] == instructions[i + 1];
      ExecUntouched(instructions[1..], table[instr.variable := val], x);
    }
  }

  /** Each assigned name ends with the value of its last assignment, computed in the table that the
      instructions before it built. */
  lemma LastAssignmentWins(instructions: seq<Instruction>, table: SymbolTable, j: nat)
    requires Exec(instructions, table).Success?
    requires j < |instructions|
    requires forall k | j < k < |instructions| :: instructions[k].variable != instructions[j].variable
    ensures Exec(instructions[..j], table).Success?
    ensures instructions[j].variable in Exec(instructions, table).value
    ensures var before := Exec(instructions[..j], table).value;
      && GetIntValue(instructions[j].value, before).Success?
      && Exec(instructions, table).value[instructions[j].variable]
           == GetIntValue(instructions[j].value, before).value
  {
    var x := instructions[j].variable;
    var rest := instructions[j + 1..];
    assert instructions == instructions[..j] + ([instructions[j]] + rest);
    ExecAppend(instructions[..j], [instructions[j]] + rest, table);
    var before := Exec(instructions[..j], table).value;
    var val := GetIntValue(instructions[j].value, before).value;
    assert ([instructions[j]] + rest)[1..] == rest;
    forall i | 0 <= i < |rest|
      ensures rest[i].variable != x
    {
      assert rest[i] == instructions[j + 1 + i];
    }
    ExecUntouched(rest, before[x := val], x);
  }

  /** A failure comes from the first instruction whose value cannot be computed, under "error: ". */
  lemma {:induction false} FirstFailingInstruction(instructions: seq<Instruction>, table: SymbolTable) returns (j: nat)
    requires Exec(instructions, table).Failure?
    ensures j < |instructions| && Exec(instructions[..j], table).Success?
    ensures var before := Exec(instructions[..j], table).value;
      && GetIntValue(instructions[j].value, before).Failure?
      && Exec(instructions, table).error == "error: " + GetIntValue(instructions[j].value, before).error
  {
    var instr := instructions[0];
    match GetIntValue(instr.value, table)
    case Failure(_) =>
      j := 0;
      assert instructions[..0] == [];
    case Success(val) =>
      var j' := FirstFailingInstruction(instructions[1..], table[instr.variable := val]);
      j := j' + 1;
      assert instructions[..j] == [instr] + instructions[1..][..j'];
      ExecAppend([instr], instructions[1..][..j'], table);
      assert instructions[1..][j'] == instructions[j];
  }

  // ---------------------------------------------------------------- properties of the outer loop

  /** Success is one table per function, in order, each the function run from an empty table; it
      happens exactly when every function runs. */
  lemma {:induction false} RunAllTables(functions: seq<Function>)
    ensures RunAll(functions).Success? <==> forall i | 0 <= i < |functions| :: Exec(functions[i].instructions, map[]).Success?
    ensures RunAll(functions).Success? ==>
      && |RunAll(functions).value| == |functions|
      && forall i | 0 <= i < |functions| :: RunAll(functions).value[i] == Exec(functions[i].instructions, map[]).value
  {
    if functions != [] {
      RunAllTables(functions[1..]);
      assert forall i | 0 < i < |functions| :: functions[1..][i - 1] == functions[i];
    }
  }

  /** A failure is the error of the first function that fails; no table survives it. */
  lemma {:induction false} RunAllFirstFailure(functions: seq<Function>) returns (i: nat)
    requires RunAll(functions).Failure?
    ensures i < |functions| && Exec(functions[i].instructions, map[]).Failure?
    ensures forall j | 0 <= j < i :: Exec(functions[j].instructions, map[]).Success?
    ensures RunAll(functions).error == Exec(functions[i].instructions, map[]).error
  {
    if Exec(functions[0].instructions, map[]).Failure? {
      i := 0;
    } else {
      var i' := RunAllFirstFailure(functions[1..]);
      i := i' + 1;
      assert forall j | 0 < j <= i :: functions[1..][j - 1] == functions[j];
    }
  }

  // ---------------------------------------------------------------- examples

  /** The hand-built trees of `x=10;y=26;z=x+15;` give {x:10, y:26, z:25}; the parser itself only
      produces number literals. */
  lemma ExampleTable()
    ensures RunAll([Function("main", [Instruction("x", IntLit(10)), Instruction("y", IntLit(26)),
                                      Instruction("z", Binary(Plus, Var("x"), IntLit(15)))])])
            == Success([map["x" := 10, "y" := 26, "z" := 25]])
  {
    var instructions := [Instruction("x", IntLit(10)), Instruction("y", IntLit(26)),
                         Instruction("z", Binary(Plus, Var("x"), IntLit(15)))];
    var t1: SymbolTable := map["x" := 10];
    var t2 := t1["y" := 26];
    var t3 := t2["z" := 25];
    assert GetIntValue(Var("x"), t2) == Success(10);
    assert GetIntValue(Binary(Plus, Var("x"), IntLit(15)), t2) == Success(25);
    assert Exec(instructions[3..], t3) == Success(t3);
    assert Exec(instructions[2..], t2) == Success(t3);
    assert Exec(instructions[1..], t1) == Success(t3);
    assert Exec(instructions, map[]) == Success(t3);
    assert t3 == map["x" := 10, "y" := 26, "z" := 25];
    assert [Function("main", instructions)][1..] == [];
    assert [t3] + [] == [t3];
  }

  /** The hand-built tree of `x=y;` gives "error: variable y not declared". */
  lemma ExampleUndeclared()
    ensures RunAll([Function("main", [Instruction("x", Var("y"))])]) == Failure("error: variable y not declared")
  {
    var empty: SymbolTable := map[];
    var instructions := [Instruction("x", Var("y"))];
    assert GetIntValue(Var("y"), empty) == Failure(NotDeclared("y"));
    assert "error: " + NotDeclared("y") == "error: variable y not declared";
    assert [Function("main", instructions)][1..] == [];
  }

  /** The hand-built tree of `x=(y+1)-2;`, without y: one "error: " from each of the two operators and one from the loop. */
  lemma ExampleNestedError()
    ensures RunAll([Function("main", [Instruction("x", Binary(Minus, Binary(Plus, Var("y"), IntLit(1)), IntLit(2)))])])
            == Failure(Prefixes(3) + NotDeclared("y"))
  {
    var empty: SymbolTable := map[];
    var sum := Binary(Plus, Var("y"), IntLit(1));
    var instructions := [Instruction("x", Binary(Minus, sum, IntLit(2)))];
    var m0 := NotDeclared("y");
    assert Prefixes(0) + m0 == m0;
    PrefixesStep(0, m0);
    PrefixesStep(1, m0);
    PrefixesStep(2, m0);
    assert GetIntValue(Var("y"), empty) == Failure(m0);
    assert GetIntValue(sum, empty) == Failure(Prefixes(1) + m0);
    assert GetIntValue(Binary(Minus, sum, IntLit(2)), empty) == Failure(Prefixes(2) + m0);
    assert [Function("main", instructions)][1..] == [];
  }
}
