/**
 * Token spellings of syntax-tree values: the inverse against which the parser is checked. Only the
 * forms the parser accepts are spelled.
 */
module Spelling {
  import opened Options
  import opened Tokens
  import opened Ast
  import opened Parser

  /** The keyword that spells a type specifier. */
  function KeywordOf(tk: TypeKind): (k: TokenKind)
    ensures IsTypeKeyword(k)
  {
    match tk
    case Auto => KwAuto
    case Char => KwChar
    case Short => KwShort
    case Int => KwInt
    case Long => KwLong
    case Float => KwFloat
    case Double => KwDouble
    case Signed => KwSigned
    case UnSigned => KwUnsigned
  }

  /** The specifiers a run of type-keyword tokens stands for. */
  function KindsOf(ts: seq<Token>): (kinds: seq<TypeKind>)
    requires forall i :: 0 <= i < |ts| ==> IsTypeKeyword(ts[i].kind)
    ensures |kinds| == |ts|
  {
    seq(|ts|, i requires 0 <= i < |ts| && IsTypeKeyword(ts[i].kind) => TokenTypeToTypeKind(ts[i].kind).value)
  }

  /** One keyword token per specifier. */
  function KindTokens(kinds: seq<TypeKind>): (ts: seq<Token>)
    ensures |ts| == |kinds|
  {
    seq(|kinds|, i requires 0 <= i < |kinds| => Tok(KeywordOf(kinds[i])))
  }

  /** `n` star tokens. */
  function StarTokens(n: nat): (ts: seq<Token>)
    ensures |ts| == n
  {
    seq(n, _ => Tok(Star))
  }

  /** A type: its specifier keywords, then one `*` per pointer level. */
  function TypeTokens(t: Type): seq<Token> {
    KindTokens(BaseType(t).kinds) + StarTokens(PointerDepth(t))
  }

  /** A parameter is its type followed by its name, or by `,` when it has none. */
  function ParamTokens(p: Param): seq<Token> {
    TypeTokens(p.ty) + [if p.name == "" then Tok(Comma) else IdentTok(p.name)]
  }

  function ParamListTokens(ps: seq<Param>): seq<Token> {
    if ps == [] then [] else ParamTokens(ps[0]) + ParamListTokens(ps[1..])
  }

  /**
   * A statement the parser reads back on its own: `break` and `continue` (without the `;` the
   * parser would not step over), a block of such statements, and `for ( ; ; )` around one of them.
   * A `return` is spelled too, but is read back only where a `;` follows it.
   */
  predicate SpellableStmt(s: Stmt) {
    match s
    case Break => true
    case Continue => true
    case Block(b) => forall i :: 0 <= i < |b.stmts| ==> SpellableStmt(b.stmts[i])
    case For(init, control, post, body) => init.None? && control.None? && post.None? && SpellableStmt(body)
    case _ => false
  }

  function StmtTokens(s: Stmt): seq<Token> {
    match s
    case Break => [Tok(KwBreak)]
    case Continue => [Tok(KwContinue)]
    case Return(_) => [Tok(KwReturn)]
    case Block(b) => [Tok(LBrace)] + StmtsTokens(b.stmts) + [Tok(RBrace)]
    case For(_, _, _, body) => [Tok(KwFor), Tok(LParen), Tok(Semi), Tok(Semi), Tok(RParen)] + StmtTokens(body)
    case _ => []
  }

  function StmtsTokens(ss: seq<Stmt>): seq<Token> {
    if ss == [] then [] else StmtTokens(ss[0]) + StmtsTokens(ss[1..])
  }

  /** `;` for a declaration, the block for a definition. */
  function BodyTokens(body: Option<BlockStmt>): seq<Token> {
    if body.None? then [Tok(Semi)] else StmtTokens(Block(body.value))
  }

  /** The part of a function between its return type and its body: `name ( parameters )`. */
  function SignatureTokens(f: Function): seq<Token> {
    [IdentTok(f.name), Tok(LParen)] + ParamListTokens(f.params) + [Tok(RParen)]
  }

  function FunctionTokens(f: Function): seq<Token> {
    TypeTokens(f.returnType) + SignatureTokens(f) + BodyTokens(f.body)
  }

  /** A global declaration in the one form the parser accepts: `type name = ;`. */
  function GlobalTokens(d: GlobalDecl): seq<Token> {
    TypeTokens(d.ty) + [IdentTok(d.name), Tok(Equal), Tok(Semi)]
  }

  /** A literal token holding a constant. */
  function ConstantToken(c: ConstantValue): Token {
    match c
    case IntConst(i) => Token(NumericConstant, IntValue(i))
    case DoubleConst(d) => Token(NumericConstant, DoubleValue(d))
    case StringConst(s) => Token(StringLiteral, StringValue(s))
  }

  /**
   * A function or global declaration this module can spell and the parser accepts back. At the top
   * level the type must not be a pointer: the look-ahead that tells functions from globals expects
   * the name right after the type keywords.
   */
  predicate Spellable(u: TopLevel) {
    match u
    case FunctionUnit(f) =>
      && WellFormedType(f.returnType) && f.returnType.PrimaryType?
      && ParamsWellFormed(f.params)
      && (f.body.None? || SpellableStmt(Block(f.body.value)))
    case GlobalUnit(d) => WellFormedType(d.ty) && d.ty.PrimaryType? && d.init.None?
  }

  /** Every unit of `us` is spellable. */
  predicate AllSpellable(us: seq<TopLevel>) {
    us == [] || (Spellable(us[0]) && AllSpellable(us[1..]))
  }

  function UnitTokens(u: TopLevel): seq<Token> {
    match u
    case FunctionUnit(f) => FunctionTokens(f)
    case GlobalUnit(d) => GlobalTokens(d)
  }

  function UnitsTokens(us: seq<TopLevel>): seq<Token> {
    if us == [] then [] else UnitTokens(us[0]) + UnitsTokens(us[1..])
  }

  /** The functions among `us`, in order. */
  function FunctionsOf(us: seq<TopLevel>): seq<Function> {
    if us == [] then [] else FunctionOf(us[0]) + FunctionsOf(us[1..])
  }

  /** The global declarations among `us`, in order. */
  function DeclsOf(us: seq<TopLevel>): seq<GlobalDecl> {
    if us == [] then [] else DeclOf(us[0]) + DeclsOf(us[1..])
  }
}
