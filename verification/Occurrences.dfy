/** The parts of a statement, and the static checks of `StaticJudgements` by what occurs anywhere in it. */
module Occurrences {
  import opened Wrappers
  import opened Identifiers
  import opened IdentifierFacts
  import opened SqlAst
  import opened StaticJudgements

  datatype Part =
    | Statement(q: Query)
    | SelectList(items: Items)
    | FromClause(from: From)
    | FromSource(source: Source)
    | Condition(c: Cond)
    | Expression(e: Expr)
    | ExpressionList(es: Exprs)

  /** The direct parts of a part. */
  function Children(p: Part): set<Part> {
    match p
    case Statement(Select(_, items, from, where, groupBy, having, orderBy, _, _, _, _)) =>
      {SelectList(items), FromClause(from), Condition(where), ExpressionList(groupBy), Condition(having),
       ExpressionList(orderBy)}
    case Statement(SetOp(_, left, right)) => {Statement(left), Statement(right)}
    case Statement(With(_, body, main)) => {Statement(body), Statement(main)}
    case Statement(Mutation(_)) => {}
    case SelectList(NoItem) => {}
    case SelectList(Star(rest)) => {SelectList(rest)}
    case SelectList(TableStar(_, rest)) => {SelectList(rest)}
    case SelectList(Item(e, _, rest)) => {Expression(e), SelectList(rest)}
    case FromClause(NoFrom) => {}
    case FromClause(Join(left, _, source, on)) => {FromClause(left), FromSource(source), Condition(on)}
    case FromSource(Table(_, _)) => {}
    case FromSource(Derived(q, _)) => {Statement(q)}
    case Condition(Always) => {}
    case Condition(If(e)) => {Expression(e)}
    case Expression(e) => Operands(e)
    case ExpressionList(NoExpr) => {}
    case ExpressionList(More(head, tail)) => {Expression(head), ExpressionList(tail)}
  }

  function Operands(e: Expr): set<Part> {
    match e
    case Const(_) => {}
    case Col(_, _) => {}
    case Binary(_, l, r) => {Expression(l), Expression(r)}
    case Not(a) => {Expression(a)}
    case IsNull(a) => {Expression(a)}
    case Paren(a) => {Expression(a)}
    case Cast(a, _) => {Expression(a)}
    case Case(tests, results, otherwise) => {ExpressionList(tests), ExpressionList(results), Expression(otherwise)}
    case Call(_, args) => {ExpressionList(args)}
    case Aggregate(_, arg) => {Expression(arg)}
    case Scalar(q) => {Statement(q)}
    case Exists(q) => {Statement(q)}
    case In(a, q) => {Expression(a), Statement(q)}
  }

  predicate Descends(path: seq<Part>) {
    |path| <= 1 || (path[1] in Children(path[0]) && Descends(path[1..]))
  }

  /** Some way down leads from one part to the other. */
  ghost predicate Occurs(part: Part, whole: Part) {
    exists path: seq<Part> :: path != [] && path[0] == whole && path[|path| - 1] == part && Descends(path)
  }

  lemma OccursItself(part: Part)
    ensures Occurs(part, part)
  {
    var path := [part];
    assert path[0] == part && path[|path| - 1] == part && Descends(path);
  }

  lemma OccursDeeper(part: Part, child: Part, whole: Part)
    requires child in Children(whole) && Occurs(part, child)
    ensures Occurs(part, whole)
  {
    var path: seq<Part> :| path != [] && path[0] == child && path[|path| - 1] == part && Descends(path);
    var longer := [whole] + path;
    assert longer[0] == whole && longer[|longer| - 1] == part;
    assert longer[1..] == path && Descends(longer);
  }

  // ---- `find_all` finds what occurs ----

  function Find(p: Part, k: Kind): seq<Node> {
    match p
    case Statement(q) => FindAll(q, k)
    case SelectList(items) => InItems(items, k)
    case FromClause(from) => InFrom(from, k)
    case FromSource(source) => InSource(source, k)
    case Condition(c) => InCond(c, k)
    case Expression(e) => InExpr(e, k)
    case ExpressionList(es) => InExprs(es, k)
  }

  /** A part that names a column, with its qualifier. */
  predicate NamesColumn(p: Part, qualifier: Option<string>, name: string) {
    || p == Expression(Col(qualifier, name))
    || (p.SelectList? && p.items.TableStar? && qualifier == Some(p.items.qualifier) && name == "*")
  }

  /** The part is this node, apart from its own parts. */
  predicate Is(p: Part, node: Node) {
    match node
    case ColumnNode(qualifier, name) => NamesColumn(p, qualifier, name)
    case TableNode(table, alias) => p == FromSource(Table(table, alias))
    case CteNode(cte) => p.Statement? && p.q.With? && p.q.name == cte
    case SubqueryNode(given) => p.FromSource? && p.source.Derived? && p.source.given == given
    case FunctionNode(fn) => p.Expression? && (p.e.Call? || p.e.Aggregate?) && p.e.fn == fn
    case MutationNode => p.Statement? && (p.q.Mutation? || (p.q.Select? && p.q.into))
    case LockNode => p.Statement? && p.q.Select? && p.q.locks
  }

  lemma FindUp(child: Part, p: Part, k: Kind, node: Node)
    requires child in Children(p) && node in Find(child, k)
    ensures node in Find(p, k)
  {
  }

  lemma FindIs(p: Part, k: Kind, node: Node)
    requires Is(p, node) && node.Kind() == k
    ensures node in Find(p, k)
  {
  }

  /** The node is a part of the whole. */
  ghost predicate Shown(node: Node, whole: Part) {
    exists part :: Occurs(part, whole) && Is(part, node)
  }

  lemma ShownItself(node: Node, whole: Part)
    requires Is(whole, node)
    ensures Shown(node, whole)
  {
    OccursItself(whole);
  }

  lemma ShownDeeper(node: Node, child: Part, whole: Part)
    requires child in Children(whole) && Shown(node, child)
    ensures Shown(node, whole)
  {
    var part :| Occurs(part, child) && Is(part, node);
    OccursDeeper(part, child, whole);
  }

  lemma {:induction false} QueryShows(q: Query, k: Kind, node: Node)
    requires node in FindAll(q, k)
    ensures Shown(node, Statement(q))
  {
    var whole := Statement(q);
    if Is(whole, node) {
      ShownItself(node, whole);
    } else {
      match q
      case Select(_, items, from, where, groupBy, having, orderBy, _, _, _, _) =>
        if node in InItems(items, k) {
          ItemsShow(items, k, node);
          ShownDeeper(node, SelectList(items), whole);
        } else if node in InFrom(from, k) {
          FromShows(from, k, node);
          ShownDeeper(node, FromClause(from), whole);
        } else if node in InCond(where, k) {
          CondShows(where, k, node);
          ShownDeeper(node, Condition(where), whole);
        } else if node in InExprs(groupBy, k) {
          ExprsShow(groupBy, k, node);
          ShownDeeper(node, ExpressionList(groupBy), whole);
        } else if node in InCond(having, k) {
          CondShows(having, k, node);
          ShownDeeper(node, Condition(having), whole);
        } else {
          ExprsShow(orderBy, k, node);
          ShownDeeper(node, ExpressionList(orderBy), whole);
        }
      case SetOp(_, left, right) =>
        var side := if node in FindAll(left, k) then left else right;
        QueryShows(side, k, node);
        ShownDeeper(node, Statement(side), whole);
      case With(_, body, main) =>
        var side := if node in FindAll(body, k) then body else main;
        QueryShows(side, k, node);
        ShownDeeper(node, Statement(side), whole);
      case Mutation(_) =>
    }
  }

  lemma {:induction false} ItemsShow(items: Items, k: Kind, node: Node)
    requires node in InItems(items, k)
    ensures Shown(node, SelectList(items))
  {
    var whole := SelectList(items);
    if Is(whole, node) {
      ShownItself(node, whole);
    } else if items.Item? && node in InExpr(items.e, k) {
      ExprShows(items.e, k, node);
      ShownDeeper(node, Expression(items.e), whole);
    } else {
      ItemsShow(items.rest, k, node);
      ShownDeeper(node, SelectList(items.rest), whole);
    }
  }

  lemma {:induction false} FromShows(from: From, k: Kind, node: Node)
    requires node in InFrom(from, k)
    ensures Shown(node, FromClause(from))
  {
    var whole := FromClause(from);
    if node in InFrom(from.left, k) {
      FromShows(from.left, k, node);
      ShownDeeper(node, FromClause(from.left), whole);
    } else if node in InCond(from.on, k) {
      CondShows(from.on, k, node);
      ShownDeeper(node, Condition(from.on), whole);
    } else {
      SourceShows(from.source, k, node);
      ShownDeeper(node, FromSource(from.source), whole);
    }
  }

  lemma {:induction false} SourceShows(source: Source, k: Kind, node: Node)
    requires node in InSource(source, k)
    ensures Shown(node, FromSource(source))
  {
    if Is(FromSource(source), node) {
      ShownItself(node, FromSource(source));
    } else {
      QueryShows(source.q, k, node);
      ShownDeeper(node, Statement(source.q), FromSource(source));
    }
  }

  lemma {:induction false} CondShows(c: Cond, k: Kind, node: Node)
    requires node in InCond(c, k)
    ensures Shown(node, Condition(c))
  {
    ExprShows(c.e, k, node);
    ShownDeeper(node, Expression(c.e), Condition(c));
  }

  lemma {:induction false} ExprShows(e: Expr, k: Kind, node: Node)
    requires node in InExpr(e, k)
    ensures Shown(node, Expression(e))
  {
    var whole := Expression(e);
    if Is(whole, node) {
      ShownItself(node, whole);
    } else {
      match e
      case Const(_) =>
      case Col(_, _) =>
      case Binary(_, l, r) =>
        var side := if node in InExpr(l, k) then l else r;
        ExprShows(side, k, node);
        ShownDeeper(node, Expression(side), whole);
      case Case(tests, results, otherwise) =>
        if node in InExpr(otherwise, k) {
          ExprShows(otherwise, k, node);
          ShownDeeper(node, Expression(otherwise), whole);
        } else {
          var list := if node in InExprs(tests, k) then tests else results;
          ExprsShow(list, k, node);
          ShownDeeper(node, ExpressionList(list), whole);
        }
      case Call(_, args) =>
        ExprsShow(args, k, node);
        ShownDeeper(node, ExpressionList(args), whole);
      case Aggregate(_, arg) =>
        ExprShows(arg, k, node);
        ShownDeeper(node, Expression(arg), whole);
      case Scalar(q) =>
        QueryShows(q, k, node);
        ShownDeeper(node, Statement(q), whole);
      case Exists(q) =>
        QueryShows(q, k, node);
        ShownDeeper(node, Statement(q), whole);
      case In(a, q) =>
        if node in InExpr(a, k) {
          ExprShows(a, k, node);
          ShownDeeper(node, Expression(a), whole);
        } else {
          QueryShows(q, k, node);
          ShownDeeper(node, Statement(q), whole);
        }
      case _ =>
        ExprShows(e.e, k, node);
        ShownDeeper(node, Expression(e.e), whole);
    }
  }

  lemma {:induction false} ExprsShow(es: Exprs, k: Kind, node: Node)
    requires node in InExprs(es, k)
    ensures Shown(node, ExpressionList(es))
  {
    if node in InExpr(es.head, k) {
      ExprShows(es.head, k, node);
      ShownDeeper(node, Expression(es.head), ExpressionList(es));
    } else {
      ExprsShow(es.tail, k, node);
      ShownDeeper(node, ExpressionList(es.tail), ExpressionList(es));
    }
  }

  lemma {:induction false} PathFinds(path: seq<Part>, k: Kind, node: Node)
    requires path != [] && Descends(path) && node in Find(path[|path| - 1], k)
    ensures node in Find(path[0], k)
  {
    if |path| > 1 {
      PathFinds(path[1..], k, node);
      FindUp(path[1], path[0], k, node);
    }
  }

  /** The nodes found are exactly those that occur. */
  lemma FoundExactly(q: Query, k: Kind, node: Node)
    requires node.Kind() == k
    ensures node in FindAll(q, k) <==> Shown(node, Statement(q))
  {
    if node in FindAll(q, k) {
      QueryShows(q, k, node);
    }
    if Shown(node, Statement(q)) {
      var part :| Occurs(part, Statement(q)) && Is(part, node);
      var path: seq<Part> :|
        path != [] && path[0] == Statement(q) && path[|path| - 1] == part && Descends(path);
      FindIs(part, k, node);
      PathFinds(path, k, node);
    }
  }

  // ---- The checks, by what occurs ----

  /** No mutation, INTO, lock or forbidden function is this part. */
  predicate Readable(p: Part) {
    match p
    case Statement(Mutation(_)) => false
    case Statement(Select(_, _, _, _, _, _, _, _, _, into, locks)) => !into && !locks
    case Expression(Call(fn, _)) => NormalizeFunctionName(fn) !in FORBIDDEN_FUNCTIONS
    case Expression(Aggregate(fn, _)) => NormalizeFunctionName(fn) !in FORBIDDEN_FUNCTIONS
    case _ => true
  }

  ghost predicate AllReadable(q: Query) {
    forall p | Occurs(p, Statement(q)) :: Readable(p)
  }

  lemma UnreadableShows(p: Part) returns (node: Node)
    requires !Readable(p)
    ensures Is(p, node) && node.Kind() == Guarded && !Harmless(node)
  {
    match p
    case Statement(Select(_, _, _, _, _, _, _, _, _, into, _)) => node := if into then MutationNode else LockNode;
    case Statement(_) => node := MutationNode;
    case Expression(e) => node := FunctionNode(e.fn);
  }

  lemma ReadableShows(p: Part, node: Node)
    requires Readable(p) && Is(p, node)
    ensures Harmless(node)
  {
  }

  /** A statement with a mutation, an INTO, a lock or a forbidden function anywhere, its WITH clauses and subqueries
      included, is refused. */
  lemma UnreadableRefused(q: Query, p: Part)
    requires Occurs(p, Statement(q)) && !Readable(p)
    ensures !IsStrictlyReadOnly([q])
  {
    var node := UnreadableShows(p);
    FoundExactly(q, Guarded, node);
  }

  lemma HarmlessFound(q: Query, node: Node)
    requires node in FindAll(q, Guarded) && AllReadable(q)
    ensures Harmless(node)
  {
    QueryShows(q, Guarded, node);
    var p :| Occurs(p, Statement(q)) && Is(p, node);
    ReadableShows(p, node);
  }

  lemma ReadableAccepted(q: Query)
    requires AllReadable(q)
    ensures IsStrictlyReadOnly([q])
  {
    var statements := [q];
    ReadableReads(q);
    forall node | node in FindAll(statements[0], Guarded) ensures Harmless(node) {
      HarmlessFound(q, node);
    }
  }

  lemma ReadableReads(q: Query)
    requires AllReadable(q)
    ensures !q.Mutation?
  {
    if q.Mutation? {
      HarmlessFound(q, MutationNode);
    }
  }

  /** A statement is strictly read-only exactly when no such part occurs. */
  lemma ReadOnlyExactly(q: Query)
    ensures IsStrictlyReadOnly([q]) <==> AllReadable(q)
  {
    forall p | IsStrictlyReadOnly([q]) && Occurs(p, Statement(q)) ensures Readable(p) {
      if !Readable(p) {
        UnreadableRefused(q, p);
      }
    }
    if AllReadable(q) {
      ReadableAccepted(q);
    }
  }

  // ---- Names, by what occurs ----

  /** A table name is one of some table source. */
  lemma TableNamesOccur(q: Query, t: string)
    ensures t in TableNames(q)
       <==> exists p :: Occurs(p, Statement(q)) && p.FromSource? && p.source.Table? && Fold(p.source.name) == t
  {
    if t in TableNames(q) {
      var node :| node in FindAll(q, Tables) && node.TableNode? && Fold(node.table) == t;
      QueryShows(q, Tables, node);
    }
    if p: Part :| Occurs(p, Statement(q)) && p.FromSource? && p.source.Table? && Fold(p.source.name) == t {
      var node := TableNode(p.source.name, p.source.alias);
      FoundExactly(q, Tables, node);
    }
  }

  /** A CTE name is one of some WITH clause. */
  lemma CteNamesOccur(q: Query, t: string)
    ensures t in CteNames(q)
       <==> exists p :: Occurs(p, Statement(q)) && p.Statement? && p.q.With? && Fold(p.q.name) == t
  {
    if t in CteNames(q) {
      var node :| node in FindAll(q, Ctes) && node.CteNode? && Fold(node.cte) == t;
      QueryShows(q, Ctes, node);
    }
    if p: Part :| Occurs(p, Statement(q)) && p.Statement? && p.q.With? && Fold(p.q.name) == t {
      var node := CteNode(p.q.name);
      FoundExactly(q, Ctes, node);
    }
  }

  /** A referenced column is one that some expression or qualified star names. */
  lemma ColumnNamesOccur(q: Query, c: string)
    ensures c in ColumnNames(q)
       <==> exists p, qualifier, name :: Occurs(p, Statement(q)) && NamesColumn(p, qualifier, name) && Fold(name) == c
  {
    if c in ColumnNames(q) {
      var node :| node in FindAll(q, Columns) && node.ColumnNode? && Fold(node.name) == c;
      QueryShows(q, Columns, node);
      var p :| Occurs(p, Statement(q)) && Is(p, node);
      assert NamesColumn(p, node.qualifier, node.name);
    }
    if p, qualifier, name :| Occurs(p, Statement(q)) && NamesColumn(p, qualifier, name) && Fold(name) == c {
      var node := ColumnNode(qualifier, name);
      FoundExactly(q, Columns, node);
    }
  }

  /** A name is referenced as a qualifier when it is the last part of some column's. */
  lemma ReferencedOccur(q: Query, a: string)
    ensures a in Referenced(q)
       <==> exists p, qualifier, name :: Occurs(p, Statement(q)) && NamesColumn(p, Some(qualifier), name)
             && qualifier != "" && Fold(LastComponent(qualifier)) == a
  {
    if a in Referenced(q) {
      var node :| node in FindAll(q, Columns) && node.ColumnNode? && node.qualifier.Some? && node.qualifier.value != ""
                  && Fold(LastComponent(node.qualifier.value)) == a;
      QueryShows(q, Columns, node);
      var p :| Occurs(p, Statement(q)) && Is(p, node);
      assert NamesColumn(p, Some(node.qualifier.value), node.name);
    }
    if p, qualifier, name :| Occurs(p, Statement(q)) && NamesColumn(p, Some(qualifier), name) && qualifier != ""
                             && Fold(LastComponent(qualifier)) == a {
      var node := ColumnNode(Some(qualifier), name);
      FoundExactly(q, Columns, node);
    }
  }

  /** A part that declares a name: a table by its name and its alias, a WITH clause, a subquery in FROM. */
  predicate Declares(p: Part, name: string) {
    || (p.FromSource? && p.source.Table? && (name == p.source.name || p.source.alias == Some(name)))
    || (p.FromSource? && p.source.Derived? && name == p.source.given)
    || (p.Statement? && p.q.With? && name == p.q.name)
  }

  lemma DeclaredOccur(q: Query, a: string)
    ensures a in Declared(q)
       <==> exists p, name :: Occurs(p, Statement(q)) && Declares(p, name) && name != "" && Fold(name) == a
  {
    if a in Declared(q) {
      var node, name := DeclaringNode(q, a);
      var p :| Occurs(p, Statement(q)) && Is(p, node);
      assert Declares(p, name);
    }
    if p, name :| Occurs(p, Statement(q)) && Declares(p, name) && name != "" && Fold(name) == a {
      DeclaringFound(q, p, name);
    }
  }

  lemma DeclaringNode(q: Query, a: string) returns (node: Node, name: string)
    requires a in Declared(q)
    ensures Shown(node, Statement(q)) && name != "" && Fold(name) == a
    ensures match node
            case TableNode(table, alias) => name == table || alias == Some(name)
            case CteNode(cte) => name == cte
            case SubqueryNode(given) => name == given
            case _ => false
  {
    if n :| n in FindAll(q, Tables) && n.TableNode? && n.table != "" && Fold(n.table) == a {
      node, name := n, n.table;
      QueryShows(q, Tables, node);
    } else if n :| n in FindAll(q, Tables) && n.TableNode? && n.alias.Some? && n.alias.value != ""
                   && Fold(n.alias.value) == a {
      node, name := n, n.alias.value;
      QueryShows(q, Tables, node);
    } else if n :| n in FindAll(q, Ctes) && n.CteNode? && n.cte != "" && Fold(n.cte) == a {
      node, name := n, n.cte;
      QueryShows(q, Ctes, node);
    } else {
      node :| node in FindAll(q, Subqueries) && node.SubqueryNode? && node.given != "" && Fold(node.given) == a;
      name := node.given;
      QueryShows(q, Subqueries, node);
    }
  }

  lemma DeclaringFound(q: Query, p: Part, name: string)
    requires Occurs(p, Statement(q)) && Declares(p, name) && name != ""
    ensures Fold(name) in Declared(q)
  {
    if p.Statement? {
      FoundExactly(q, Ctes, CteNode(p.q.name));
    } else if p.source.Table? {
      FoundExactly(q, Tables, TableNode(p.source.name, p.source.alias));
    } else {
      FoundExactly(q, Subqueries, SubqueryNode(p.source.given));
    }
  }

  /** The alias check accepts exactly the statements in which each qualifier's last part is declared somewhere. */
  lemma AliasesResolvedExactly(q: Query)
    ensures Referenced(q) - Declared(q) == {}
       <==> forall p, qualifier, name | Occurs(p, Statement(q)) && NamesColumn(p, Some(qualifier), name)
                                         && qualifier != "" ::
              exists d, declared :: Occurs(d, Statement(q)) && Declares(d, declared) && declared != ""
                                    && Fold(declared) == Fold(LastComponent(qualifier))
  {
    forall p, qualifier, name | Referenced(q) - Declared(q) == {} && Occurs(p, Statement(q))
                                && NamesColumn(p, Some(qualifier), name) && qualifier != ""
      ensures exists d, declared :: Occurs(d, Statement(q)) && Declares(d, declared) && declared != ""
                                    && Fold(declared) == Fold(LastComponent(qualifier))
    {
      var a := Fold(LastComponent(qualifier));
      ReferencedOccur(q, a);
      assert a !in Referenced(q) - Declared(q);
      DeclaredOccur(q, a);
    }
    forall a | a in Referenced(q) && a !in Declared(q) ensures a in Referenced(q) - Declared(q) {
      ReferencedOccur(q, a);
      DeclaredOccur(q, a);
    }
    if a :| a in Referenced(q) - Declared(q) {
      ReferencedOccur(q, a);
      DeclaredOccur(q, a);
      var p, qualifier, name :| Occurs(p, Statement(q)) && NamesColumn(p, Some(qualifier), name) && qualifier != ""
                                && Fold(LastComponent(qualifier)) == a;
    }
  }

  // ---- Spellings of a function ----

  predicate QuoteMark(c: char) {
    c in {'"', '`', '\''}
  }

  lemma {:induction false} UnquotedAppend(a: string, b: string)
    ensures Unquoted(a + b) == Unquoted(a) + Unquoted(b)
  {
    if a == "" {
      assert a + b == b;
    } else {
      assert (a + b)[1..] == a[1..] + b;
      UnquotedAppend(a[1..], b);
    }
  }

  lemma {:induction false} UnquotedMeans(s: string)
    ensures AllOf(s, QuoteMark) ==> Unquoted(s) == ""
    ensures (forall c | c in s :: !QuoteMark(c)) ==> Unquoted(s) == s
  {
    if s != "" {
      assert s[0] in s && forall c | c in s[1..] :: c in s;
      UnquotedMeans(s[1..]);
    }
  }

  /** Quoted, qualified or in any case, a function has the same name for the check. */
  lemma FunctionSpelled(prefix: string, quotes: string, name: string, quotes': string)
    requires AllOf(quotes, QuoteMark) && AllOf(quotes', QuoteMark) && '.' !in name && IdentifierFacts.Bare(name, Blank)
    requires forall c | c in name :: !QuoteMark(c)
    ensures NormalizeFunctionName(prefix + "." + (quotes + name + quotes')) == Fold(name)
    ensures NormalizeFunctionName(quotes + name + quotes') == Fold(name)
  {
    var spelled := quotes + name + quotes';
    QuotesOff(quotes, name, quotes');
    UnquotedAppend(prefix + ".", spelled);
    UnquotedAppend(prefix, ".");
    UnquotedMeans(".");
    LastPart(Unquoted(prefix), name);
    StripMeans("", name, "", Blank);
    assert "" + name + "" == name;
  }

  lemma QuotesOff(quotes: string, name: string, quotes': string)
    requires AllOf(quotes, QuoteMark) && AllOf(quotes', QuoteMark) && forall c | c in name :: !QuoteMark(c)
    ensures Unquoted(quotes + name + quotes') == name
  {
    UnquotedMeans(quotes);
    UnquotedMeans(quotes');
    UnquotedMeans(name);
    UnquotedAppend(quotes, name);
    UnquotedAppend(quotes + name, quotes');
  }
}
