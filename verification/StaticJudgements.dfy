/** What the static checks of `ast_analyzer.py` and `_find_unresolved_table_aliases` say of a statement,
    and that the rewrites do not change it. */
module StaticJudgements {
  import opened Wrappers
  import opened Identifiers
  import opened SqlAst

  datatype Kind = Columns | Tables | Ctes | Subqueries | Guarded

  datatype Node =
    | ColumnNode(qualifier: Option<string>, name: string)
    | TableNode(table: string, alias: Option<string>)
    | CteNode(cte: string)
    | SubqueryNode(given: string)
    | FunctionNode(fn: string)
    | MutationNode
    | LockNode
  {
    function Kind(): Kind {
      match this
      case ColumnNode(_, _) => Columns
      case TableNode(_, _) => Tables
      case CteNode(_) => Ctes
      case SubqueryNode(_) => Subqueries
      case _ => Guarded
    }
  }

  function Emit(k: Kind, node: Node): seq<Node> {
    if node.Kind() == k then [node] else []
  }

  // ---- `find_all`: the nodes of one kind ----

  function FindAll(q: Query, k: Kind): seq<Node> {
    match q
    case Select(_, items, from, where, groupBy, having, orderBy, _, _, into, locks) =>
      InItems(items, k) + InFrom(from, k) + InCond(where, k) + InExprs(groupBy, k) + InCond(having, k)
          + InExprs(orderBy, k)
      + (if into then Emit(k, MutationNode) else []) + (if locks then Emit(k, LockNode) else [])
    case SetOp(_, left, right) => FindAll(left, k) + FindAll(right, k)
    case With(name, body, main) => Emit(k, CteNode(name)) + FindAll(body, k) + FindAll(main, k)
    case Mutation(_) => Emit(k, MutationNode)
  }

  function InItems(items: Items, k: Kind): seq<Node> {
    match items
    case NoItem => []
    case Star(rest) => InItems(rest, k)
    case TableStar(a, rest) => Emit(k, ColumnNode(Some(a), "*")) + InItems(rest, k)
    case Item(e, _, rest) => InExpr(e, k) + InItems(rest, k)
  }

  function InFrom(f: From, k: Kind): seq<Node> {
    match f
    case NoFrom => []
    case Join(left, _, source, on) => InFrom(left, k) + InSource(source, k) + InCond(on, k)
  }

  function InSource(source: Source, k: Kind): seq<Node> {
    match source
    case Table(name, alias) => Emit(k, TableNode(name, alias))
    case Derived(q, given) => Emit(k, SubqueryNode(given)) + FindAll(q, k)
  }

  function InCond(c: Cond, k: Kind): seq<Node> {
    match c
    case Always => []
    case If(e) => InExpr(e, k)
  }

  function InExpr(e: Expr, k: Kind): seq<Node> {
    match e
    case Const(_) => []
    case Col(qualifier, name) => Emit(k, ColumnNode(qualifier, name))
    case Binary(_, l, r) => InExpr(l, k) + InExpr(r, k)
    case Not(a) => InExpr(a, k)
    case IsNull(a) => InExpr(a, k)
    case Paren(a) => InExpr(a, k)
    case Cast(a, _) => InExpr(a, k)
    case Case(tests, results, otherwise) => InExprs(tests, k) + InExprs(results, k) + InExpr(otherwise, k)
    case Call(fn, args) => Emit(k, FunctionNode(fn)) + InExprs(args, k)
    case Aggregate(fn, arg) => Emit(k, FunctionNode(fn)) + InExpr(arg, k)
    case Scalar(q) => FindAll(q, k)
    case Exists(q) => FindAll(q, k)
    case In(a, q) => InExpr(a, k) + FindAll(q, k)
  }

  function InExprs(es: Exprs, k: Kind): seq<Node> {
    match es
    case NoExpr => []
    case More(head, tail) => InExpr(head, k) + InExprs(tail, k)
  }

  // ---- The checks ----

  const FORBIDDEN_FUNCTIONS: set<string> := {
    "pg_read_file", "pg_read_binary_file", "pg_write_file", "pg_write_binary_file", "pg_file_write", "pg_file_rename",
    "pg_file_unlink", "pg_execute_server_program", "pg_terminate_backend", "pg_cancel_backend",
    "pg_sleep", "pg_sleep_for", "pg_sleep_until",
    "pg_advisory_lock", "pg_advisory_lock_shared", "pg_try_advisory_lock", "pg_try_advisory_lock_shared",
    "pg_advisory_xact_lock", "pg_advisory_xact_lock_shared",
    "dblink", "dblink_exec", "dblink_connect", "dblink_open", "dblink_fetch", "dblink_close", "dblink_disconnect",
    "lo_import", "lo_export", "lo_create", "lo_unlink", "lo_from_bytea", "lo_put", "lo_truncate",
    "query_to_xml", "table_to_xml", "cursor_to_xml", "copy"
  }

  function Unquoted(s: string): string {
    if s == "" then ""
    else (if s[0] in {'"', '`', '\''} then "" else [s[0]]) + Unquoted(s[1..])
  }

  function NormalizeFunctionName(name: string): string {
    Fold(Strip(LastComponent(Unquoted(name))))
  }

  predicate Harmless(node: Node) {
    match node
    case MutationNode => false
    case LockNode => false
    case FunctionNode(fn) => NormalizeFunctionName(fn) !in FORBIDDEN_FUNCTIONS
    case _ => true
  }

  /** `is_strictly_read_only` on the parsed statements. */
  predicate IsStrictlyReadOnly(statements: seq<Query>) {
    |statements| == 1 && !statements[0].Mutation? && forall node | node in FindAll(statements[0], Guarded) ::
        Harmless(node)
  }

  function CteNames(q: Query): set<string> {
    set node | node in FindAll(q, Ctes) && node.CteNode? :: Fold(node.cte)
  }

  function TableNames(q: Query): set<string> {
    set node | node in FindAll(q, Tables) && node.TableNode? :: Fold(node.table)
  }

  /** The names to list, in the order of the nodes. */
  function PhysicalNames(nodes: seq<Node>, ctes: set<string>): seq<string> {
    if nodes == [] then []
    else
      var before, last := PhysicalNames(nodes[..|nodes| - 1], ctes), nodes[|nodes| - 1];
      if last.TableNode? && Fold(last.table) != "" && Fold(last.table) !in ctes
      then before + [Fold(last.table)]
      else before
  }

  /** The first occurrence of each name. */
  function FirstOfEach(names: seq<string>): seq<string> {
    if names == [] then []
    else
      var before := FirstOfEach(names[..|names| - 1]);
      if names[|names| - 1] in before then before else before + [names[|names| - 1]]
  }

  lemma {:induction false} FirstOfEachMeans(names: seq<string>)
    ensures forall t :: t in FirstOfEach(names) <==> t in names
    ensures forall i, j | 0 <= i < j < |FirstOfEach(names)| :: FirstOfEach(names)[i] != FirstOfEach(names)[j]
  {
    if names != [] {
      FirstOfEachMeans(names[..|names| - 1]);
      assert names == names[..|names| - 1] + [names[|names| - 1]];
    }
  }

  lemma {:induction false} PhysicalMeans(nodes: seq<Node>, ctes: set<string>)
    ensures forall t :: t in PhysicalNames(nodes, ctes)
                   <==> t != "" && t !in ctes && exists node | node in nodes && node.TableNode? :: Fold(node.table) == t
  {
    if nodes != [] {
      PhysicalMeans(nodes[..|nodes| - 1], ctes);
      assert nodes == nodes[..|nodes| - 1] + [nodes[|nodes| - 1]];
    }
  }

  /** `extract_tables`: each physical table once, in the order of its first node. */
  method ExtractTables(root: Query) returns (tables: seq<string>)
    ensures tables == FirstOfEach(PhysicalNames(FindAll(root, Tables), CteNames(root)))
    ensures forall t :: t in tables <==> t in TableNames(root) && t != "" && t !in CteNames(root)
    ensures forall i, j | 0 <= i < j < |tables| :: tables[i] != tables[j]
  {
    tables := [];
    var nodes, cteNames := FindAll(root, Tables), CteNames(root);
    for i := 0 to |nodes|
      invariant tables == FirstOfEach(PhysicalNames(nodes[..i], cteNames))
    {
      assert nodes[..i + 1][..i] == nodes[..i];
      ghost var names := PhysicalNames(nodes[..i], cteNames);
      if nodes[i].TableNode? {
        var name := Fold(nodes[i].table);
        assert (names + [name])[..|names|] == names;
        if name != "" && name !in cteNames && name !in tables {
          tables := tables + [name];
        }
      }
    }
    assert nodes[..|nodes|] == nodes;
    PhysicalMeans(nodes, cteNames);
    FirstOfEachMeans(PhysicalNames(nodes, cteNames));
  }

  predicate HasRootStar(items: Items) {
    match items
    case NoItem => false
    case Star(_) => true
    case TableStar(_, rest) => HasRootStar(rest)
    case Item(_, _, rest) => HasRootStar(rest)
  }

  /** The parser attaches WITH to the statement it precedes. */
  function Root(q: Query): Query {
    match q
    case With(_, _, main) => Root(main)
    case _ => q
  }

  predicate StarAtRoot(q: Query) {
    Root(q).Select? && HasRootStar(Root(q).items)
  }

  function ColumnNames(q: Query): set<string> {
    set node | node in FindAll(q, Columns) && node.ColumnNode? :: Fold(node.name)
  }

  /** `extract_referenced_columns`: a star of the root SELECT, WITH or not, stands for everything. */
  method ExtractReferencedColumns(root: Query) returns (columns: set<string>)
    ensures StarAtRoot(root) ==> columns == {"*"}
    ensures !StarAtRoot(root) ==> columns == ColumnNames(root) - {""}
  {
    if StarAtRoot(root) {
      return {"*"};
    }
    columns := {};
    var nodes := FindAll(root, Columns);
    for i := 0 to |nodes|
      invariant forall c :: c in columns <==> c != "" && exists j | 0 <= j < i && nodes[j].ColumnNode? ::
          Fold(nodes[j].name) == c
    {
      if nodes[i].ColumnNode? && Fold(nodes[i].name) != "" {
        columns := columns + {Fold(nodes[i].name)};
      }
    }
  }

  function DeclaredByTables(q: Query): set<string> {
    (set node | node in FindAll(q, Tables) && node.TableNode? && node.alias.Some? && node.alias.value != "" ::
     Fold(node.alias.value))
    + (set node | node in FindAll(q, Tables) && node.TableNode? && node.table != "" :: Fold(node.table))
  }

  function Declared(q: Query): set<string> {
    DeclaredByTables(q)
    + (set node | node in FindAll(q, Ctes) && node.CteNode? && node.cte != "" :: Fold(node.cte))
    + (set node | node in FindAll(q, Subqueries) && node.SubqueryNode? && node.given != "" :: Fold(node.given))
  }

  function Referenced(q: Query): set<string> {
    set node | node in FindAll(q, Columns) && node.ColumnNode? && node.qualifier.Some? && node.qualifier.value != ""
      :: Fold(LastComponent(node.qualifier.value))
  }

  /** The loop over table nodes: aliases and names. */
  method DeclareTables(nodes: seq<Node>) returns (declared: set<string>)
    ensures declared
         == (set node | node in nodes && node.TableNode? && node.alias.Some? && node.alias.value != "" ::
             Fold(node.alias.value))
                      + (set node | node in nodes && node.TableNode? && node.table != "" :: Fold(node.table))
  {
    declared := {};
    for i := 0 to |nodes|
      invariant declared == (set node | node in nodes[..i] && node.TableNode? && node.alias.Some?
                             && node.alias.value != "" :: Fold(node.alias.value))
                          + (set node | node in nodes[..i] && node.TableNode? && node.table != "" :: Fold(node.table))
    {
      assert nodes[..i + 1] == nodes[..i] + [nodes[i]];
      if nodes[i].TableNode? {
        if nodes[i].alias.Some? && nodes[i].alias.value != "" {
          declared := declared + {Fold(nodes[i].alias.value)};
        }
        if nodes[i].table != "" {
          declared := declared + {Fold(nodes[i].table)};
        }
      }
    }
    assert nodes[..|nodes|] == nodes;
  }

  /** The loop over CTE nodes, then the loop over subquery nodes. */
  method DeclareNamed(ctes: seq<Node>, subqueries: seq<Node>) returns (declared: set<string>)
    ensures declared == (set node | node in ctes && node.CteNode? && node.cte != "" :: Fold(node.cte))
                      + (set node | node in subqueries && node.SubqueryNode? && node.given != "" :: Fold(node.given))
  {
    declared := {};
    for i := 0 to |ctes|
      invariant declared == set node | node in ctes[..i] && node.CteNode? && node.cte != "" :: Fold(node.cte)
    {
      assert ctes[..i + 1] == ctes[..i] + [ctes[i]];
      if ctes[i].CteNode? && ctes[i].cte != "" {
        declared := declared + {Fold(ctes[i].cte)};
      }
    }
    assert ctes[..|ctes|] == ctes;
    ghost var before := declared;
    for i := 0 to |subqueries|
      invariant declared == before + set node | node in subqueries[..i] && node.SubqueryNode? && node.given != "" ::
          Fold(node.given)
    {
      assert subqueries[..i + 1] == subqueries[..i] + [subqueries[i]];
      if subqueries[i].SubqueryNode? && subqueries[i].given != "" {
        declared := declared + {Fold(subqueries[i].given)};
      }
    }
    assert subqueries[..|subqueries|] == subqueries;
  }

  /** `_find_unresolved_table_aliases`: it complains of exactly the referenced names that nothing declares. */
  method FindUnresolvedTableAliases(root: Query) returns (unresolved: set<string>)
    ensures unresolved == Referenced(root) - Declared(root)
  {
    var tables := DeclareTables(FindAll(root, Tables));
    var named := DeclareNamed(FindAll(root, Ctes), FindAll(root, Subqueries));
    var referenced: set<string>, columns := {}, FindAll(root, Columns);
    for i := 0 to |columns|
      invariant referenced == set node | node in columns[..i] && node.ColumnNode? && node.qualifier.Some?
          && node.qualifier.value != ""
        :: Fold(LastComponent(node.qualifier.value))
    {
      assert columns[..i + 1] == columns[..i] + [columns[i]];
      if columns[i].ColumnNode? && columns[i].qualifier.Some? && columns[i].qualifier.value != "" {
        referenced := referenced + {Fold(LastComponent(columns[i].qualifier.value))};
      }
    }
    assert columns[..|columns|] == columns;
    return referenced - (tables + named);
  }
}
