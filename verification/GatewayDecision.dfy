/** What the gateway decides on, by what occurs in the statement. */
module GatewayDecision {
  import opened Wrappers
  import opened Identifiers
  import opened SqlAst
  import opened StaticJudgements
  import opened TablesRead
  import opened Occurrences
  import opened Policies
  import opened PolicyFields
  import opened Gateway

  /** The part names a table t that no WITH clause of the statement defines. */
  ghost predicate NamesPhysical(q: Query, p: Part, t: string) {
    && Occurs(p, Statement(q)) && p.FromSource? && p.source.Table? && Fold(p.source.name) == t && t != ""
    && forall w | Occurs(w, Statement(q)) && w.Statement? && w.q.With? :: Fold(w.q.name) != t
  }

  lemma PhysicalOccurs(q: Query, t: string)
    ensures t in Extracted(q) <==> exists p :: NamesPhysical(q, p, t)
  {
    TableNamesOccur(q, t);
    CteNamesOccur(q, t);
    if t in Extracted(q) {
      var p :| Occurs(p, Statement(q)) && p.FromSource? && p.source.Table? && Fold(p.source.name) == t;
      assert NamesPhysical(q, p, t);
    }
  }

  /** The decision is on exactly the tables that occur and are no CTE's, if there are any. */
  lemma TouchedOccur(q: Query, textTables: seq<string>, t: string)
    requires exists p, u :: NamesPhysical(q, p, u)
    ensures t in Touched(q, textTables) <==> exists p :: NamesPhysical(q, p, t)
  {
    var p, u :| NamesPhysical(q, p, u);
    PhysicalOccurs(q, u);
    PhysicalOccurs(q, t);
    TouchedMeans(q, textTables);
  }

  /** No part names a column, but by the empty name. */
  ghost predicate NoColumn(q: Query) {
    forall p, qualifier, name | Occurs(p, Statement(q)) && NamesColumn(p, qualifier, name) :: name == ""
  }

  /** Without any, what the text shows decides; and so it does for columns. */
  lemma FallsBack(q: Query, textTables: seq<string>, textColumns: set<string>)
    ensures (forall p, t :: !NamesPhysical(q, p, t)) ==> Touched(q, textTables) == textTables
    ensures !StarAtRoot(q) && NoColumn(q) ==> ReferencedColumns(q, textColumns) == textColumns
  {
    if forall p, t :: !NamesPhysical(q, p, t) {
      NothingTouched(q, textTables);
    }
    if NoColumn(q) {
      forall c | c in ColumnNames(q) ensures c == "" {
        ColumnNamesOccur(q, c);
      }
      assert ColumnNames(q) - {""} == {};
    }
  }

  lemma NothingTouched(q: Query, textTables: seq<string>)
    requires forall p, t :: !NamesPhysical(q, p, t)
    ensures Touched(q, textTables) == textTables
  {
    var names := PhysicalNames(FindAll(q, Tables), CteNames(q));
    PhysicalMeans(FindAll(q, Tables), CteNames(q));
    FirstOfEachMeans(names);
    if FirstOfEach(names) != [] {
      var t := FirstOfEach(names)[0];
      assert t in FirstOfEach(names);
      var node :| node in FindAll(q, Tables) && node.TableNode? && Fold(node.table) == t;
      assert t in TableNames(q);
      assert t in Extracted(q);
      PhysicalOccurs(q, t);
    }
  }

  /** Every table that occurs in an allowed statement, and is no CTE's, is allowed by a policy that fits the caller and
      forbidden by none. */
  lemma AllowedTablesOccur(r: Request, q: Query, p: Part, t: string)
    requires DecisionOn(r, q).allowed && NamesPhysical(q, p, t)
    ensures exists x | x in r.policies :: Allows(x, r.who, r.database, t)
    ensures forall x | x in r.policies :: !Forbids(x, r.who, r.database, t)
  {
    TouchedOccur(q, r.textTables, t);
    DecidedByFields(r.policies, r.who, r.database, Touched(q, r.textTables), ReferencedColumns(q, r.textColumns));
  }

  /** Some policy that allows a table of the statement lists the column, or none of them lists any. */
  predicate Listed(r: Request, q: Query, column: string) {
    var tables := Touched(q, r.textTables);
    || (forall x | x in r.policies && AllowsSome(x, r.who, r.database, tables) :: x.columns == {})
    || (exists x | x in r.policies && AllowsSome(x, r.who, r.database, tables) :: column in x.columns)
  }

  lemma ReferencedListed(r: Request, q: Query, column: string)
    requires DecisionOn(r, q).allowed && column in ReferencedColumns(q, r.textColumns)
    ensures Listed(r, q, column)
  {
    DecidedByFields(r.policies, r.who, r.database, Touched(q, r.textTables), ReferencedColumns(q, r.textColumns));
  }

  lemma ColumnReferenced(q: Query, textColumns: set<string>, p: Part, qualifier: Option<string>, name: string)
    requires !StarAtRoot(q) && Occurs(p, Statement(q)) && NamesColumn(p, qualifier, name) && name != ""
    ensures Fold(name) in ReferencedColumns(q, textColumns)
  {
    var c := Fold(name);
    ColumnNamesOccur(q, c);
    assert |c| > 0;
    assert c in ColumnNames(q) - {""};
  }

  /** Every column that occurs anywhere in an allowed statement is listed, and so is the star if it stands at the root.
      */
  lemma AllowedColumnsOccur(r: Request, q: Query, p: Part, qualifier: Option<string>, name: string)
    requires DecisionOn(r, q).allowed && Occurs(p, Statement(q)) && NamesColumn(p, qualifier, name) && name != ""
    ensures Listed(r, q, if StarAtRoot(q) then "*" else Fold(name))
  {
    if StarAtRoot(q) {
      ReferencedListed(r, q, "*");
    } else {
      ColumnReferenced(q, r.textColumns, p, qualifier, name);
      ReferencedListed(r, q, Fold(name));
    }
  }

  /** A star at the root needs the star listed. */
  lemma AllowedStarListed(r: Request, q: Query)
    requires DecisionOn(r, q).allowed && StarAtRoot(q)
    ensures Listed(r, q, "*")
  {
    ReferencedListed(r, q, "*");
  }


  // ---- The star at the root ----

  /** An item that is not the bare star. */
  datatype Listing = Plain(e: Expr, alias: Option<string>) | Qualified(a: string)

  function Before(first: seq<Listing>, rest: Items): Items {
    if first == [] then rest
    else match first[0]
      case Plain(e, alias) => Item(e, alias, Before(first[1..], rest))
      case Qualified(a) => TableStar(a, Before(first[1..], rest))
  }

  function Under(withs: seq<(string, Query)>, q: Query): Query {
    if withs == [] then q else With(withs[0].0, withs[0].1, Under(withs[1..], q))
  }

  lemma {:induction false} StarredList(first: seq<Listing>, rest: Items)
    ensures HasRootStar(Before(first, Star(rest)))
  {
    if first != [] {
      StarredList(first[1..], rest);
    }
  }

  /** A SELECT that lists a star, under any WITH clauses, has it at the root. */
  lemma {:induction false} StarListed(withs: seq<(string, Query)>, q: Query, first: seq<Listing>, rest: Items)
    requires q.Select? && q.items == Before(first, Star(rest))
    ensures StarAtRoot(Under(withs, q))
  {
    if withs == [] {
      StarredList(first, rest);
    } else {
      StarListed(withs[1..], q, first, rest);
    }
  }

  lemma {:induction false} ListStars(items: Items) returns (first: seq<Listing>, rest: Items)
    requires HasRootStar(items)
    ensures items == Before(first, Star(rest))
  {
    match items
    case Star(r) => first, rest := [], r;
    case TableStar(a, r) =>
      first, rest := ListStars(r);
      first := [Qualified(a)] + first;
    case Item(e, alias, r) =>
      first, rest := ListStars(r);
      first := [Plain(e, alias)] + first;
  }

  /** And no other statement has. */
  lemma {:induction false} RootStars(q: Query)
    returns (withs: seq<(string, Query)>, select: Query, first: seq<Listing>, rest: Items)
    requires StarAtRoot(q)
    ensures select.Select? && q == Under(withs, select) && select.items == Before(first, Star(rest))
  {
    match q
    case With(name, body, main) =>
      withs, select, first, rest := RootStars(main);
      withs := [(name, body)] + withs;
    case Select(_, items, _, _, _, _, _, _, _, _, _) =>
      first, rest := ListStars(items);
      withs, select := [], q;
  }
}
