/** The abstract syntax tree the parser builds. Every node owns its children; there is no sharing. */
module Ast {
  import opened Options
  import opened Tokens

  /** The type specifiers; there is no aggregate and no `void` kind. */
  datatype TypeKind = Auto | Char | Short | Int | Long | Float | Double | Signed | UnSigned

  /** A run of specifiers, wrapped once per `*` that followed it. */
  datatype Type = PrimaryType(kinds: seq<TypeKind>) | PointerType(pointee: Type)

  /** `t` wrapped in `n` pointer types. */
  function Pointers(n: nat, t: Type): (r: Type)
    ensures PointerDepth(r) == n + PointerDepth(t)
  {
    if n == 0 then t else PointerType(Pointers(n - 1, t))
  }

  /** The number of pointer types around the primary type. */
  function PointerDepth(t: Type): nat {
    match t
    case PrimaryType(_) => 0
    case PointerType(p) => 1 + PointerDepth(p)
  }

  /** The primary type at the heart of `t`. */
  function BaseType(t: Type): (b: Type)
    ensures b.PrimaryType?
  {
    match t
    case PrimaryType(_) => t
    case PointerType(p) => BaseType(p)
  }

  /** Every type is its primary type wrapped in as many pointer types as it has levels. */
  lemma {:induction false} PointersOfBase(t: Type)
    ensures t == Pointers(PointerDepth(t), BaseType(t))
  {
    match t
    case PrimaryType(_) =>
    case PointerType(p) => PointersOfBase(p);
  }

  /** A type the parser can produce: its specifier run is not empty. */
  predicate WellFormedType(t: Type) {
    |BaseType(t).kinds| > 0
  }

  /** The value of a constant initializer: a literal, never a computed expression. */
  datatype ConstantValue = IntConst(i: int32) | DoubleConst(d: FloatBits) | StringConst(s: string)

  datatype ConstantExpr = ConstantExpr(value: ConstantValue)

  /** The conditional-expression node. Its grammar is not implemented, so it has no contents. */
  datatype ConditionalExpr = ConditionalExpr

  /** `lhs op rhs`, right-recursive; both operands are owned pointers that may be null. */
  datatype AssignExpr = AssignExpr(lhs: Option<ConditionalExpr>, op: TokenKind, rhs: Option<AssignExpr>)

  /** The comma operator: a non-empty list of assignment expressions. */
  datatype Expr = Expr(head: AssignExpr, tail: seq<AssignExpr>)

  datatype Declaration = Declaration(ty: Type, name: string, init: Option<Expr>)

  datatype BlockStmt = BlockStmt(stmts: seq<Stmt>)

  datatype Stmt =
    | Block(block: BlockStmt)
    | If(cond: Expr, thenStmt: Stmt, elseStmt: Option<Stmt>)
    | While(cond: Expr, body: Stmt)
    | DoWhile(body: Stmt, cond: Expr)
    | For(init: Option<Expr>, control: Option<Expr>, post: Option<Expr>, body: Stmt)
    | ForDecl(initDecl: Declaration, control: Option<Expr>, post: Option<Expr>, body: Stmt)
    | Decl(decl: Declaration)
    | Break
    | Continue
    | Return(value: Option<Expr>)
    | ExprStmt(expr: Option<Expr>)

  /** A parameter; the empty name marks an anonymous one. */
  datatype Param = Param(ty: Type, name: string)

  /** A function: a declaration when `body` is absent, a definition when it is present. */
  datatype Function = Function(returnType: Type, name: string, params: seq<Param>, body: Option<BlockStmt>)

  datatype GlobalDecl = GlobalDecl(ty: Type, name: string, init: Option<ConstantExpr>)

  /** Every parameter of `ps` has a well-formed type. */
  predicate ParamsWellFormed(ps: seq<Param>) {
    ps == [] || (WellFormedType(ps[0].ty) && ParamsWellFormed(ps[1..]))
  }

  /** Functions and global declarations, each in source order, kept in two separate lists. */
  datatype Program = Program(funcs: seq<Function>, decls: seq<GlobalDecl>)

  /** One construct at the top level of a translation unit: a function or a global declaration. */
  datatype TopLevel = FunctionUnit(f: Function) | GlobalUnit(d: GlobalDecl)

  /** The function a unit holds, if it is one. */
  function FunctionOf(u: TopLevel): seq<Function> {
    if u.FunctionUnit? then [u.f] else []
  }

  /** The global declaration a unit holds, if it is one. */
  function DeclOf(u: TopLevel): seq<GlobalDecl> {
    if u.GlobalUnit? then [u.d] else []
  }
}
