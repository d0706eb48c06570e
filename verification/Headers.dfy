/** Identity cases of the rewrites, and the output columns of a rewritten statement. */
module Headers {
  import opened Wrappers
  import opened Identifiers
  import opened SqlAst
  import opened SqlSemantics
  import opened Rewrites
  import opened RewriteFacts

  // ---- An empty scope and an empty set of masked columns change nothing ----

  lemma NoPredicates(c: Cond, qs: seq<string>)
    ensures ConjoinAll(c, ScopePredicates([], qs)) == c
  {
  }

  lemma {:induction false} ScopeNothing(q: Query)
    ensures ScopeQuery(q, []) == q
  {
    match q
    case Select(_, items, from, where, groupBy, having, orderBy, _, _, _, _) =>
      ScopeNoItems(items); ScopeNoFrom(from); ScopeNoCond(where); ScopeNoExprs(groupBy); ScopeNoCond(having);
      ScopeNoExprs(orderBy);
      NoPredicates(where, SortedSet(TableQualifiers(from)));
    case SetOp(_, left, right) => ScopeNothing(left); ScopeNothing(right);
    case With(_, body, main) => ScopeNothing(body); ScopeNothing(main);
    case Mutation(_) =>
  }

  lemma {:induction false} ScopeNoItems(items: Items)
    ensures ScopeItems(items, []) == items
  {
    match items
    case NoItem =>
    case Star(rest) => ScopeNoItems(rest);
    case TableStar(_, rest) => ScopeNoItems(rest);
    case Item(e, _, rest) => ScopeNoExpr(e); ScopeNoItems(rest);
  }

  lemma {:induction false} ScopeNoFrom(f: From)
    ensures ScopeFrom(f, []) == f
  {
    if f.Join? {
      ScopeNoFrom(f.left);
      if f.source.Derived? { ScopeNothing(f.source.q); }
      ScopeNoCond(f.on);
    }
  }

  lemma {:induction false} ScopeNoCond(c: Cond)
    ensures ScopeCond(c, []) == c
  {
    if c.If? { ScopeNoExpr(c.e); }
  }

  lemma {:induction false} ScopeNoExpr(e: Expr)
    ensures ScopeExpr(e, []) == e
  {
    match e
    case Const(_) =>
    case Col(_, _) =>
    case Binary(_, l, r) => ScopeNoExpr(l); ScopeNoExpr(r);
    case Not(a) => ScopeNoExpr(a);
    case IsNull(a) => ScopeNoExpr(a);
    case Paren(a) => ScopeNoExpr(a);
    case Cast(a, _) => ScopeNoExpr(a);
    case Case(tests, results, otherwise) => ScopeNoExprs(tests); ScopeNoExprs(results); ScopeNoExpr(otherwise);
    case Call(_, args) => ScopeNoExprs(args);
    case Aggregate(_, arg) => ScopeNoExpr(arg);
    case Scalar(q) => ScopeNothing(q);
    case Exists(q) => ScopeNothing(q);
    case In(a, q) => ScopeNoExpr(a); ScopeNothing(q);
  }

  lemma {:induction false} ScopeNoExprs(es: Exprs)
    ensures ScopeExprs(es, []) == es
  {
    if es.More? { ScopeNoExpr(es.head); ScopeNoExprs(es.tail); }
  }

  lemma {:induction false} MaskNothing(q: Query)
    ensures MaskQuery(q, {}) == q
  {
    match q
    case Select(_, items, from, where, groupBy, having, orderBy, _, _, _, _) =>
      MaskNoItems(items); MaskNoFrom(from); MaskNoCond(where); MaskNoExprs(groupBy); MaskNoCond(having);
      MaskNoExprs(orderBy);
    case SetOp(_, left, right) => MaskNothing(left); MaskNothing(right);
    case With(_, body, main) => MaskNothing(body); MaskNothing(main);
    case Mutation(_) =>
  }

  lemma {:induction false} MaskNoItems(items: Items)
    ensures MaskItems(items, {}) == items
  {
    match items
    case NoItem =>
    case Star(rest) => MaskNoItems(rest);
    case TableStar(_, rest) => MaskNoItems(rest);
    case Item(e, _, rest) => MaskNoExpr(e); MaskNoItems(rest);
  }

  lemma {:induction false} MaskNoFrom(f: From)
    ensures MaskFrom(f, {}) == f
  {
    if f.Join? {
      MaskNoFrom(f.left);
      if f.source.Derived? { MaskNothing(f.source.q); }
      MaskNoCond(f.on);
    }
  }

  lemma {:induction false} MaskNoCond(c: Cond)
    ensures MaskCond(c, {}) == c
  {
    if c.If? { MaskNoExpr(c.e); }
  }

  lemma {:induction false} MaskNoExpr(e: Expr)
    ensures MaskExpr(e, {}) == e
  {
    match e
    case Const(_) =>
    case Col(_, _) =>
    case Binary(_, l, r) => MaskNoExpr(l); MaskNoExpr(r);
    case Not(a) => MaskNoExpr(a);
    case IsNull(a) => MaskNoExpr(a);
    case Paren(a) => MaskNoExpr(a);
    case Cast(a, _) => MaskNoExpr(a);
    case Case(tests, results, otherwise) => MaskNoExprs(tests); MaskNoExprs(results); MaskNoExpr(otherwise);
    case Call(_, args) => MaskNoExprs(args);
    case Aggregate(_, arg) => MaskNoExpr(arg);
    case Scalar(q) => MaskNothing(q);
    case Exists(q) => MaskNothing(q);
    case In(a, q) => MaskNoExpr(a); MaskNothing(q);
  }

  lemma {:induction false} MaskNoExprs(es: Exprs)
    ensures MaskExprs(es, {}) == es
  {
    if es.More? { MaskNoExpr(es.head); MaskNoExprs(es.tail); }
  }

  // ---- Output columns ----

  ghost predicate SameCols(x: map<string, Relation>, y: map<string, Relation>) {
    x.Keys == y.Keys && forall t | t in x :: x[t].cols == y[t].cols
  }

  /** No output column is renamed by masking. `lost` are the CTEs in scope whose columns are. */
  predicate HeaderSafe(q: Query, masked: set<string>, lost: set<string>)
    decreases q, 0
  {
    match q
    case Select(_, items, from, _, _, _, _, _, _, _, _) => ItemsSafe(items, from, masked, lost)
    case SetOp(_, left, _) => HeaderSafe(left, masked, lost)
    case With(name, body, main) =>
      HeaderSafe(main, masked, if HeaderSafe(body, masked, lost) then lost - {Fold(name)} else lost + {Fold(name)})
    case Mutation(_) => true
  }

  /** Listed items keep their names, and stars draw on sources that do. */
  predicate ItemsSafe(items: Items, from: From, masked: set<string>, lost: set<string>)
    decreases from, 1, items
  {
    match items
    case NoItem => true
    case Star(rest) => SourcesSafe(from, None, masked, lost) && ItemsSafe(rest, from, masked, lost)
    case TableStar(a, rest) => SourcesSafe(from, Some(Fold(a)), masked, lost) && ItemsSafe(rest, from, masked, lost)
    case Item(e, alias, rest) => !(alias.None? && HeaderChanges(e, masked)) && ItemsSafe(rest, from, masked, lost)
  }

  predicate SourcesSafe(from: From, only: Option<string>, masked: set<string>, lost: set<string>)
    decreases from, 0
  {
    match from
    case NoFrom => true
    case Join(left, _, source, _) =>
      && SourcesSafe(left, only, masked, lost)
      && (only.None? || only.value == Fold(source.Qualifier()) ==> SourceSafe(source, masked, lost))
  }

  predicate SourceSafe(source: Source, masked: set<string>, lost: set<string>)
    decreases source, 0
  {
    match source
    case Table(name, _) => Fold(name) !in lost
    case Derived(q, _) => HeaderSafe(q, masked, lost)
  }

  /** Lists of one length that differ at most in names. */
  ghost predicate SameExcept(x: map<string, Relation>, y: map<string, Relation>, lost: set<string>) {
    && x.Keys == y.Keys && lost <= x.Keys
    && forall t | t in x :: |x[t].cols| == |y[t].cols| && (x[t].cols == y[t].cols <==> t !in lost)
  }

  predicate Alike(a: seq<string>, b: seq<string>, same: bool) {
    |a| == |b| && (a == b <==> same)
  }

  lemma AlikeJoined(a1: seq<string>, b1: seq<string>, same1: bool, a2: seq<string>, b2: seq<string>, same2: bool)
    requires Alike(a1, b1, same1) && Alike(a2, b2, same2)
    ensures Alike(a1 + a2, b1 + b2, same1 && same2)
  {
    if a1 + a2 == b1 + b2 {
      assert a1 == (a1 + a2)[..|a1|] && b1 == (b1 + b2)[..|a1|];
      assert a2 == (a1 + a2)[|a1|..] && b2 == (b1 + b2)[|a1|..];
    }
  }

  lemma {:induction false} PickAppend(a: seq<Field>, b: seq<Field>, q: string)
    ensures PickNames(a + b, q) == PickNames(a, q) + PickNames(b, q)
  {
    if a == [] {
      assert a + b == b;
    } else {
      assert (a + b)[1..] == a[1..] + b;
      PickAppend(a[1..], b, q);
    }
  }

  lemma {:induction false} PickTagged(alias: string, cols: seq<string>, q: string)
    ensures PickNames(Tag(alias, cols), q) == if Fold(alias) == Fold(q) then cols else []
  {
    if cols != [] {
      assert Tag(alias, cols)[1..] == Tag(alias, cols[1..]);
      PickTagged(alias, cols[1..], q);
    }
  }

  /** The output columns of the rewritten statement are those of the original exactly when masking renames
      none, on any two databases with the same schema. */
  lemma {:induction false} HeaderExact(q: Query, s: Scope, masked: set<string>, lost: set<string>, m: Site, n: Site,
                                       x: Env, y: Env)
    requires SameCols(m.db.tables, n.db.tables) && SameExcept(m.ctes, n.ctes, lost)
    ensures Alike(Eval(MaskQuery(ScopeQuery(q, s), masked), m, x).cols, Eval(q, n, y).cols, HeaderSafe(q, masked, lost))
    decreases q, 0
  {
    match q
    case Select(_, items, from, _, _, _, _, _, _, _, _) =>
      SelectCols(q, n, y);
      SelectCols(MaskQuery(ScopeQuery(q, s), masked), m, x);
      ItemsExact(items, from, s, masked, lost, m, n, x, y);
    case SetOp(op, left, right) => HeaderExact(left, s, masked, lost, m, n, x, y);
    case With(name, body, main) =>
      HeaderExact(body, s, masked, lost, m, n, x, y);
      var m' := m.(ctes := m.ctes[Fold(name) := Eval(MaskQuery(ScopeQuery(body, s), masked), m, x)]);
      var n' := n.(ctes := n.ctes[Fold(name) := Eval(body, n, y)]);
      HeaderExact(main, s, masked, if HeaderSafe(body, masked, lost) then lost - {Fold(name)} else lost + {Fold(name)},
                  m', n', x, y);
    case Mutation(_) =>
  }

  lemma SelectCols(q: Query, m: Site, env: Env)
    requires q.Select?
    ensures Eval(q, m, env).cols == ItemNames(q.items, EvalFrom(q.from, m, env).shape.fields)
  {
  }

  lemma {:induction false} ItemsExact(items: Items, from: From, s: Scope, masked: set<string>, lost: set<string>,
                                      m: Site, n: Site, x: Env, y: Env)
    requires SameCols(m.db.tables, n.db.tables) && SameExcept(m.ctes, n.ctes, lost)
    ensures Alike(ItemNames(MaskItems(ScopeItems(items, s), masked),
                            EvalFrom(MaskFrom(ScopeFrom(from, s), masked), m, x).shape.fields),
                  ItemNames(items, EvalFrom(from, n, y).shape.fields), ItemsSafe(items, from, masked, lost))
    decreases from, 1, items
  {
    var f, g := EvalFrom(MaskFrom(ScopeFrom(from, s), masked), m, x).shape.fields, EvalFrom(from, n, y).shape.fields;
    if items != NoItem {
      var rest := items.rest;
      ItemsExact(rest, from, s, masked, lost, m, n, x, y);
      var names, names' := ItemNames(MaskItems(ScopeItems(rest, s), masked), f), ItemNames(rest, g);
      var safe := ItemsSafe(rest, from, masked, lost);
      match items
      case Star(_) =>
        FieldsExact(from, None, s, masked, lost, m, n, x, y);
        AlikeJoined(FieldNames(f), FieldNames(g), SourcesSafe(from, None, masked, lost), names, names', safe);
      case TableStar(a, _) =>
        FieldsExact(from, Some(a), s, masked, lost, m, n, x, y);
        AlikeJoined(PickNames(f, a), PickNames(g, a), SourcesSafe(from, Some(Fold(a)), masked, lost), names, names',
                    safe);
      case Item(e, alias, _) =>
        DefaultNameScoped(e, s, masked);
        ItemNameMasked(ScopeItems(items, s), masked);
        AlikeJoined([ItemName(MaskItems(ScopeItems(items, s), masked))], [ItemName(items)],
                    !(alias.None? && HeaderChanges(e, masked)), names, names', safe);
    }
  }

  /** The names a star, or the star of one qualifier, stands for. */
  function Starred(fields: seq<Field>, only: Option<string>): seq<string> {
    match only
    case None => FieldNames(fields)
    case Some(a) => PickNames(fields, a)
  }

  lemma StarredStep(fields: seq<Field>, alias: string, cols: seq<string>, only: Option<string>)
    ensures Starred(fields + Tag(alias, cols), only)
         == Starred(fields, only) + (if only.None? || Fold(only.value) == Fold(alias) then cols else [])
  {
    match only
    case None => assert FieldNames(fields + Tag(alias, cols)) == FieldNames(fields) + cols;
    case Some(a) =>
      PickAppend(fields, Tag(alias, cols), a);
      PickTagged(alias, cols, a);
  }

  function Folded(only: Option<string>): Option<string> {
    match only
    case None => None
    case Some(a) => Some(Fold(a))
  }

  lemma {:induction false} FieldsExact(f: From, only: Option<string>, s: Scope, masked: set<string>,
                                       lost: set<string>, m: Site, n: Site, x: Env, y: Env)
    requires SameCols(m.db.tables, n.db.tables) && SameExcept(m.ctes, n.ctes, lost)
    ensures Alike(Starred(EvalFrom(MaskFrom(ScopeFrom(f, s), masked), m, x).shape.fields, only),
                  Starred(EvalFrom(f, n, y).shape.fields, only), SourcesSafe(f, Folded(only), masked, lost))
    decreases f, 0
  {
    match f
    case NoFrom =>
    case Join(left, kind, source, on) =>
      FieldsExact(left, only, s, masked, lost, m, n, x, y);
      SourceExact(source, s, masked, lost, m, n, x, y);
      var source' := MaskSource(ScopeSource(source, s), masked);
      assert source'.Qualifier() == source.Qualifier();
      assert MaskFrom(ScopeFrom(f, s), masked)
          == Join(MaskFrom(ScopeFrom(left, s), masked), kind, source', MaskCond(ScopeCond(on, s), masked));
      var a, b := EvalSource(source', m, x).cols, EvalSource(source, n, y).cols;
      var l, r := EvalFrom(MaskFrom(ScopeFrom(left, s), masked), m, x).shape.fields, EvalFrom(left, n, y).shape.fields;
      StarredStep(l, source.Qualifier(), a, only);
      StarredStep(r, source.Qualifier(), b, only);
      var mine := only.None? || Fold(only.value) == Fold(source.Qualifier());
      AlikeJoined(Starred(l, only), Starred(r, only), SourcesSafe(left, Folded(only), masked, lost),
                  if mine then a else [], if mine then b else [], mine ==> SourceSafe(source, masked, lost));
  }

  lemma {:induction false} SourceExact(source: Source, s: Scope, masked: set<string>, lost: set<string>, m: Site,
                                       n: Site, x: Env, y: Env)
    requires SameCols(m.db.tables, n.db.tables) && SameExcept(m.ctes, n.ctes, lost)
    ensures Alike(EvalSource(MaskSource(ScopeSource(source, s), masked), m, x).cols, EvalSource(source, n, y).cols,
                  SourceSafe(source, masked, lost))
    decreases source, 0
  {
    match source
    case Table(name, _) =>
    case Derived(q, _) => HeaderExact(q, s, masked, lost, m, n, x, y);
  }
}
