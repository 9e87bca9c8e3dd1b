/**
 * The program tree the parser builds and the interpreter runs: functions made of assignments.
 * The expression type has the shape the interpreter reads (hephaestus.org/interpreter.go):
 * an integer literal, a variable, an addition or a subtraction of two subexpressions, and any
 * other expression code, which the interpreter does not evaluate.
 */
module Ast {

  datatype BinaryOp = Plus | Minus

  datatype Expr =
    | IntLit(value: int)
    | Var(name: string)
    | Binary(op: BinaryOp, left: Expr, right: Expr)
    | OtherCode  // a string, a boolean, a comparison, ...: codes the interpreter does not evaluate

  /** One assignment `variable = value;`. */
  datatype Instruction = Instruction(variable: string, value: Expr)

  datatype Function = Function(name: string, instructions: seq<Instruction>)
}
