/**
 * The slice of Go's abstract syntax tree that the generators build:
 * type expressions, expressions, statements, fields and declarations,
 * plus queries used to state where an expression may occur.
 */
module GoAst {
  import opened Wrappers

  /** A type as written in a parameter or result list. */
  datatype TypeExpr =
    | TIdent(name: string)              // error, int, interface{}
    | TSelector(x: TypeExpr, sel: string) // pkg.Name
    | TStar(elem: TypeExpr)             // *T
    | TArray(elt: TypeExpr)             // []T
    | TEllipsis(elt: TypeExpr)          // ...T, the last parameter of a variadic method
    | TOther(text: string)              // any other type, kept opaque

  datatype LitKind = IntLit | StringLit

  datatype BinOp = Neq | Gtr

  datatype Expr =
    | Ident(name: string)
    | BasicLit(kind: LitKind, value: string)
    | Call(fun: Expr, args: seq<Expr>, spread: bool)  // spread: the last argument is passed as `x...`
    | Selector(x: Expr, sel: string)
    | CompositeLit(typ: TypeExpr, elts: seq<Expr>)
    | Binary(x: Expr, op: BinOp, y: Expr)
    | Index(x: Expr, index: Expr)
    | NilExpr                                          // an expression left unset (a nil pointer)

  datatype AssignTok = Define | Assign   // `:=` and `=`

  datatype Stmt =
    | AssignStmt(lhs: seq<Expr>, tok: AssignTok, rhs: seq<Expr>)
    | ExprStmt(x: Expr)
    | Return(results: seq<Expr>)
    | If(cond: Expr, body: seq<Stmt>)
    | Defer(call: Expr)
    | Empty

  /** A parameter, result or struct field: its names and its type. */
  datatype Field = Field(names: seq<string>, typ: TypeExpr)

  /** The receiver of a method: `m *structName`. */
  datatype Receiver = Receiver(name: string, typeName: string)

  datatype Decl =
    | FuncDecl(doc: string, name: string, recv: Option<Receiver>,
               params: seq<Field>, results: seq<Field>, body: seq<Stmt>)
    | StructDecl(name: string, fields: seq<Field>)

  /** Go's `%q` verb, without escaping: the text between double quotes. */
  function Quote(s: string): string {
    "\"" + s + "\""
  }

  lemma QuoteInjective(a: string, b: string)
    ensures Quote(a) == Quote(b) ==> a == b
  {
    if Quote(a) == Quote(b) {
      assert a == Quote(a)[1..|Quote(a)| - 1];
      assert b == Quote(b)[1..|Quote(b)| - 1];
    }
  }

  /** A string literal holding `s` quoted. */
  function StringLitOf(s: string): Expr {
    BasicLit(StringLit, Quote(s))
  }

  /** One identifier expression per name, in order. */
  function Idents(names: seq<string>): seq<Expr> {
    seq(|names|, i requires 0 <= i < |names| => Ident(names[i]))
  }

  /** `name != nil` */
  function NotNil(name: string): Expr {
    Binary(Ident(name), Neq, Ident("nil"))
  }

  /** The type `<alias>.Context`. */
  predicate IsContextType(t: TypeExpr, contextAlias: string) {
    t == TSelector(TIdent(contextAlias), "Context")
  }

  /** The type `error`. */
  predicate IsErrorType(t: TypeExpr) {
    t == TIdent("error")
  }

  /** `x` occurs as a sub-expression of `e` (or is `e`). */
  predicate Occurs(x: Expr, e: Expr)
    decreases e
  {
    e == x ||
    match e
    case Call(f, args, _) => Occurs(x, f) || exists a | a in args :: Occurs(x, a)
    case Selector(y, _) => Occurs(x, y)
    case CompositeLit(_, elts) => exists a | a in elts :: Occurs(x, a)
    case Binary(a, _, b) => Occurs(x, a) || Occurs(x, b)
    case Index(a, b) => Occurs(x, a) || Occurs(x, b)
    case _ => false
  }

  /** `x` occurs somewhere in statement `s`. */
  predicate StmtOccurs(x: Expr, s: Stmt)
    decreases s
  {
    match s
    case AssignStmt(l, _, r) => (exists a | a in l :: Occurs(x, a)) || (exists a | a in r :: Occurs(x, a))
    case ExprStmt(e) => Occurs(x, e)
    case Return(rs) => exists a | a in rs :: Occurs(x, a)
    case If(c, body) => Occurs(x, c) || exists t | t in body :: StmtOccurs(x, t)
    case Defer(e) => Occurs(x, e)
    case Empty => false
  }

  /**
   * `x` occurs in `s` at a place that is not inside the body of an
   * `if guard { ... }`: the only statements whose execution does not
   * depend on `guard` holding.
   */
  predicate Unguarded(x: Expr, guard: Expr, s: Stmt)
    decreases s
  {
    match s
    case If(c, body) => Occurs(x, c) || (c != guard && exists t | t in body :: Unguarded(x, guard, t))
    case _ => StmtOccurs(x, s)
  }

  lemma UnguardedOccurs(x: Expr, guard: Expr, s: Stmt)
    ensures Unguarded(x, guard, s) ==> StmtOccurs(x, s)
  {
    match s
    case If(c, body) =>
      forall t | t in body
        ensures Unguarded(x, guard, t) ==> StmtOccurs(x, t)
      {
        UnguardedOccurs(x, guard, t);
      }
    case _ =>
  }

  /** A non-identifier occurs in no identifier list. */
  lemma NotInIdents(x: Expr, names: seq<string>)
    requires !x.Ident?
    ensures forall a | a in Idents(names) :: !Occurs(x, a)
  {
  }
}
