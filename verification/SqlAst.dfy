/** The SELECT fragment the gateway rewrites, as a tree of values.
    Lists of children are cons-lists of their own type, so every recursion below is structural. */
module SqlAst {
  import opened Wrappers

  datatype Value = Null | Bool(b: bool) | Int(n: int) | Str(s: string)

  datatype BinaryOp = Eq | Less | And | Or

  datatype SetOperator = UnionAll | Union | Intersect | Except

  datatype JoinKind = Inner | LeftOuter | RightOuter | FullOuter {
    /** The join keeps an unmatched left row, padding the right side with NULLs. */
    predicate KeepsLeft() { LeftOuter? || FullOuter? }

    /** The join keeps an unmatched right row, padding the left side with NULLs. */
    predicate KeepsRight() { RightOuter? || FullOuter? }
  }

  datatype Query =
    | Select(distinct: bool, items: Items, from: From, where: Cond, groupBy: Exprs, having: Cond,
             orderBy: Exprs, descending: seq<bool>, limit: Option<nat>, into: bool, locks: bool)
    | SetOp(op: SetOperator, left: Query, right: Query)
    | With(name: string, body: Query, main: Query)
    | Mutation(kind: string)  // a data-modifying statement, as a CTE body may hold

  datatype Items =
    | NoItem
    | Star(rest: Items)
    | TableStar(qualifier: string, rest: Items)
    | Item(e: Expr, alias: Option<string>, rest: Items)

  /** A FROM clause grows from the left: its first source is joined to `NoFrom`.
      A comma or CROSS JOIN is an inner join without an ON condition. */
  datatype From =
    | NoFrom
    | Join(left: From, kind: JoinKind, source: Source, on: Cond)

  datatype Source =
    | Table(name: string, alias: Option<string>)
    | Derived(q: Query, given: string)
  {
    /** The name by which columns of this source are qualified. */
    function Qualifier(): string {
      match this
      case Table(name, None) => name
      case Table(_, Some(a)) => a
      case Derived(_, a) => a
    }
  }

  /** An optional condition: WHERE, HAVING or ON. */
  datatype Cond = Always | If(e: Expr)

  datatype Expr =
    | Const(v: Value)
    | Col(qualifier: Option<string>, name: string)
    | Binary(op: BinaryOp, l: Expr, r: Expr)
    | Not(e: Expr)
    | IsNull(e: Expr)
    | Paren(e: Expr)  // the parser keeps parentheses
    | Cast(e: Expr, target: string)
    | Case(tests: Exprs, results: Exprs, otherwise: Expr)
    | Call(fn: string, args: Exprs)
    | Aggregate(fn: string, arg: Expr)
    | Scalar(q: Query)
    | Exists(q: Query)
    | In(e: Expr, q: Query)

  datatype Exprs = NoExpr | More(head: Expr, tail: Exprs)

  /** What stands inside parentheses. */
  function Bare(e: Expr): Expr {
    if e.Paren? then Bare(e.e) else e
  }

  /** The part of an expression that names its output column: parentheses, a cast and CASE hand the
      question on to their operand and to their ELSE. */
  function NamingPart(e: Expr): (part: Expr)
    ensures part == e || part < e
  {
    match e
    case Paren(a) => NamingPart(a)
    case Cast(a, _) => NamingPart(a)
    case Case(_, _, otherwise) => NamingPart(otherwise)
    case _ => e
  }

  /** The name an expression falls back on when its naming part has none. */
  function FallbackName(e: Expr): string {
    match e
    case Paren(a) => FallbackName(a)
    case Cast(_, target) => target
    case Case(_, _, _) => "case"
    case _ => "?column?"
  }

  /** The name a naming part gives: a column its own, a function call its function's, and a scalar
      subquery that of its first column. */
  function OwnName(e: Expr): Option<string>
    decreases e, 0
  {
    match e
    case Col(_, name) => Some(name)
    case Call(fn, _) => Some(fn)
    case Aggregate(fn, _) => Some(fn)
    case Exists(_) => Some("exists")
    case Scalar(q) => Some(FirstName(q))
    case _ => None
  }

  /** The name of an output column without alias. */
  function DefaultName(e: Expr): string
    decreases e, 1
  {
    match OwnName(NamingPart(e))
    case Some(name) => name
    case None => FallbackName(e)
  }

  function FirstName(q: Query): string
    decreases q, 0
  {
    match q
    case Select(_, items, _, _, _, _, _, _, _, _, _) => FirstItemName(items)
    case SetOp(_, left, _) => FirstName(left)
    case With(_, _, main) => FirstName(main)
    case Mutation(_) => "?column?"
  }

  function FirstItemName(items: Items): string
    decreases items, 0
  {
    match items
    case Item(e, None, _) => DefaultName(e)
    case Item(_, Some(a), _) => a
    case _ => "?column?"
  }

  /** Aggregates of this level; those inside a subquery belong to the subquery. */
  predicate HasAggregate(e: Expr) {
    match e
    case Aggregate(_, _) => true
    case Binary(_, l, r) => HasAggregate(l) || HasAggregate(r)
    case Not(a) => HasAggregate(a)
    case IsNull(a) => HasAggregate(a)
    case Paren(a) => HasAggregate(a)
    case Cast(a, _) => HasAggregate(a)
    case Case(tests, results, otherwise) => AnyAggregate(tests) || AnyAggregate(results) || HasAggregate(otherwise)
    case Call(_, args) => AnyAggregate(args)
    case In(a, _) => HasAggregate(a)
    case _ => false
  }

  predicate AnyAggregate(es: Exprs) {
    match es
    case NoExpr => false
    case More(head, tail) => HasAggregate(head) || AnyAggregate(tail)
  }

  predicate ItemsAggregate(items: Items) {
    match items
    case NoItem => false
    case Star(rest) => ItemsAggregate(rest)
    case TableStar(_, rest) => ItemsAggregate(rest)
    case Item(e, _, rest) => HasAggregate(e) || ItemsAggregate(rest)
  }

  /** A SELECT is evaluated group by group when it groups, aggregates anywhere, or has a HAVING. */
  predicate IsGrouped(groupBy: Exprs, items: Items, having: Cond, orderBy: Exprs) {
    groupBy.More? || ItemsAggregate(items) || having.If? || AnyAggregate(orderBy)
  }
}
