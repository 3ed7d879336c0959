/** Expression trees.  Positions and expression contexts (load/store) are not kept;
    parallel slices that must have equal length (dictionary keys and values,
    comparison operators and comparators) are sequences of pairs. */
module Ast {
  import opened Tokens

  datatype BoolOpKind = Or | And
  datatype UnaryKind = Not | UAdd | USub | Invert
  datatype CmpOp = Eq | NotEq | Lt | LtE | Gt | GtE | Is | IsNot | In | NotIn
  datatype Operator =
    | BitOr | BitXor | BitAnd | LShift | RShift | Add | Sub
    | Mult | MatMult | Div | Mod | FloorDiv | Pow

  datatype Const =
    | CNone | CTrue | CFalse | CEllipsis
    | CInt(digits: string)
    | CFloat(text: string)
    | CStr(kind: StrKind, val: string)

  datatype Expr =
    | Name(id: string)
    | Constant(c: Const)
    | BoolOp(bop: BoolOpKind, values: seq<Expr>)
    | NamedExpr(target: Expr, nvalue: Expr)
    | BinOp(op: Operator, left: Expr, right: Expr)
    | UnaryOp(uop: UnaryKind, operand: Expr)
    | Lambda(params: Arguments, lbody: Expr)
    | IfExp(test: Expr, body: Expr, orelse: Expr)
    | Dict(items: seq<DictItem>)
    | Set(selts: seq<Expr>)
    | ListComp(elt: Expr, gens: seq<Comprehension>)
    | SetComp(elt: Expr, gens: seq<Comprehension>)
    | DictComp(key: Expr, elt: Expr, gens: seq<Comprehension>)
    | GeneratorExp(elt: Expr, gens: seq<Comprehension>)
    | Await(awaited: Expr)
    | Yield(yvalue: Option<Expr>)
    | YieldFrom(yfrom: Expr)
    | Compare(first: Expr, rest: seq<Comparison>)
    | Call(func: Expr, args: seq<Expr>, keywords: seq<Keyword>)
    | Attribute(avalue: Expr, attr: string)
    | Subscript(svalue: Expr, slice: Expr)
    | Starred(starred: Expr)
    | ListExpr(lelts: seq<Expr>)
    | Tuple(telts: seq<Expr>)
    | Slice(lower: Option<Expr>, upper: Option<Expr>, step: Option<Expr>)

  /** A missing key is `**value`. */
  datatype DictItem = DictItem(key: Option<Expr>, value: Expr)
  datatype Comparison = Comparison(op: CmpOp, right: Expr)
  /** A missing name is `**value`. */
  datatype Keyword = Keyword(arg: Option<string>, value: Expr)
  datatype Comprehension = Comprehension(target: Expr, iter: Expr, ifs: seq<Expr>, isAsync: bool)
  datatype Param = Param(name: string, ann: Option<Expr>)
  datatype Arguments = Arguments(
    posonly: seq<Param>, args: seq<Param>, defaults: seq<Expr>,
    vararg: Option<Param>, kwonly: seq<Param>, kwdefaults: seq<Option<Expr>>,
    kwarg: Option<Param>)

  datatype Stmt =
    | Pass | Break | Continue
    | ExprStmt(value: Expr)
    | Return(result: Option<Expr>)
    | AssignStmt(targets: seq<Expr>, avalue: Expr)
    | AugStmt(starget: Expr, op: Operator, svalue: Expr)
    /** `simple` says that the target is a name written without parentheses. */
    | AnnStmt(starget: Expr, ann: Expr, init: Option<Expr>, simple: bool)
    | Del(dels: seq<Expr>)
    | Assert(check: Expr, msg: Option<Expr>)
    | Raise(exc: Option<Expr>, cause: Option<Expr>)
    | Import(names: seq<Alias>)
    | ImportFrom(level: nat, source: seq<string>, names: seq<Alias>)
    | Declare(isGlobal: bool, ids: seq<string>)
    | If(test: Expr, body: seq<Stmt>, orelse: seq<Stmt>)
    | While(test: Expr, body: seq<Stmt>, orelse: seq<Stmt>)
    | For(isAsync: bool, ftarget: Expr, iter: Expr, body: seq<Stmt>, orelse: seq<Stmt>)
    | Try(star: bool, body: seq<Stmt>, handlers: seq<Handler>, orelse: seq<Stmt>, finalbody: seq<Stmt>)
    | FunctionDef(isAsync: bool, decorators: seq<Expr>, name: string, params: Arguments,
                  rtype: Option<Expr>, body: seq<Stmt>)
    | ClassDef(decorators: seq<Expr>, name: string, bases: seq<Expr>, keywords: seq<Keyword>, body: seq<Stmt>)

  /** A dotted name, by its parts, and the name after `as`. */
  datatype Alias = Alias(path: seq<string>, asname: Option<string>)

  datatype Handler = Handler(typ: Option<Expr>, name: Option<string>, body: seq<Stmt>)
}
