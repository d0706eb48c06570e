# A verified model of the governed query service

The service answers SQL on behalf of users who may see only some rows and some columns. This project
models the parts that decide and enforce that, and proves what they guarantee.

* **Query rewriting.** A gateway rewrites every SELECT before it runs: it conjoins `qualifier.column =
  'value'` into each SELECT that names a table, replaces masked columns by NULL, and nulls masked columns
  of the result rows. `SqlAst` and `SqlSemantics` give a SQL fragment and its meaning: SELECT with joins
  (inner, cross, left, right, full), derived tables, CTEs, set operations, correlated scalar, EXISTS and
  IN subqueries, CASE, casts, grouping, aggregates, HAVING, DISTINCT, ORDER BY and LIMIT over bags of rows
  in order, with three-valued logic, and with PostgreSQL's reading of keys (an integer is the number of an
  output column, a name may be an output name) and naming of output columns. What an engine decides for
  itself (functions, casts, aggregates, comparison of values, sorting) is a parameter `Engine`, the same on
  both sides of every theorem. `Rewrites` has the rewrites; `Simulation` and `SimulationProof` prove one
  theorem by mutual induction over the tree: the two rewritten forms of a statement, run on two databases
  that agree, in the tables it reads, after cutting to the scope and up to masked columns, give agreeing
  answers. Everything in `GovernedQuery` follows from it. `RedactionProof` is a second induction: without masked
  values in the database, masking changes nothing. Together they give `GatewayView`: the gateway answers the original
  statement on the subject's own rows with the masked columns cleared, where the subject's rows are given by the
  policies' restrictions and the subject's attributes themselves (`Subjects`). `ScopingLimits` and `MaskingLimits` prove
  what happens just outside the conditions, and `Gateway` and `GatewayDecision` join the pipeline to the policy
  decision. `SqlLaws` says row by row what the operators of the evaluator mean.
* **Static judgements.** The read-only check, table and column extraction, and the alias check, on the same
  tree, and what the rewrites do to them. `Occurrences` says what each means for the parts that occur anywhere in a
  statement.
* **Policy decision.** `evaluate` (what a query may do) and `effective_access` (what a user is shown).
* **Admission control.** A queue counter, a semaphore, a timeout and a `finally`, per tenant, for any number
  of concurrent requests, as a step system and as the objects the gateway updates.
* **Rate limiting.** Pruned deques per key and dimension, against counting over the whole history.
* **Audit chain, session store, list splitting, batch fetching.**

Loops and objects of the program are methods and classes that are proved equal to specification functions;
the theorems are lemmas about those functions. What a specification function makes of single fields is stated without
it, in `PolicyFields`, `LimiterFields`, `Subjects`, `Occurrences`, `MaskedRecords` and `AuditHistory`.

## Model

| member | source | states |
|---|---|---|
| GatewayView.GatewayIsView | sql_query_api/services/query_gateway.py:169-204 | End to end: the records returned are those of the original statement's answer on the subject's view of the database, its own rows with NULL in every masked column. For statements whose joins pad no directly named table, whose FROM clauses name no CTE and that call nothing else by a masked name, and that list their columns (with masked names that are plain identifiers and a row filter on public columns, for stars of the root too) |
| GatewayView.AllowedIsView | sql_query_api/services/query_gateway.py:160-233 | The same from the policies: every query they allow, with its restrictions answered and none of them on a masked column, is answered on that view |
| GatewayView.ExecutedIsView | sql_query_api/services/query_gateway.py:169-176 | Before `mask_rows`: the scoped and masked statement on the whole database answers as the original on the view, up to columns named like masked ones, and equally if it lists its columns |
| GatewayView.MaskingIsView | sql_query_api/services/policy_engine.py:574-605 | Masking alone, with outer joins and CTE references too: the masked statement means the original one on the database whose masked columns are all NULL |
| RedactionProof.QueryKept | sql_query_api/services/policy_engine.py:574-605 | Where no masked column holds a value, a statement that calls nothing else by a masked name means the same before and after masking, and shows NULL under every masked name |
| Subjects.ResolvedScope | sql_query_api/services/policy_engine.py:540-547 | A column is restricted to a value if and only if the last restriction on that column, in any spelling of its letters, names an attribute of the subject with that value; each column once |
| Subjects.AnswersOwnRows | sql_query_api/services/query_gateway.py:169-204 | The gateway returns the masked statement's answer on the tables cut to the rows that equal the subject's attribute in every restricted column; without masked columns that is the answer to the statement itself |
| Subjects.DependsOnOwnRows | sql_query_api/services/query_gateway.py:169-204 | In the wide fragment: databases with the same rows of the subject, up to masked columns, get the same records or the same refusal |
| Subjects.RefusedExactly | sql_query_api/services/policy_engine.py:540-546 | Row scoping refuses if and only if some restriction names an attribute that the subject lacks |
| GovernedQuery.ScopingPreservesMeaning | sql_query_api/services/policy_engine.py:528-571 | The scoped statement on a database returns what the original statement returns on the database cut to the subject's rows: same columns, rows, order and multiplicity. For every statement whose joins pad no directly named table and whose FROM clauses name no CTE, with correlated subqueries, derived tables, set operations and grouping |
| GovernedQuery.ScopingHidesRows | sql_query_api/services/policy_engine.py:499-571 | With outer joins and CTE references too, two databases whose in-scope rows are the same cannot be told apart by a scoped statement |
| GovernedQuery.ScopedOnCutDatabase | sql_query_api/services/policy_engine.py:499-571 | In the same wide fragment, a scoped statement answers on a database as on the database cut to the scope |
| GovernedQuery.MaskingHidesColumns | sql_query_api/services/policy_engine.py:574-605 | Databases that differ in masked columns only give a masked statement answers that agree outside columns named like masked ones, and equal answers if the statement lists its columns; through predicates, aggregates, ordering, subqueries and nested projections |
| GovernedQuery.HeadersKept | sql_query_api/services/policy_engine.py:595-603 | Scoping renames no output column, and the two rewrites together keep all names if and only if no masked column names an output column from behind parentheses, a cast or the ELSE of a CASE (looking through stars, derived tables, CTEs and scalar subqueries) |
| RewriteFacts.RewritesCommute | sql_query_api/services/query_gateway.py:169-176 | Masking after scoping is scoping after masking, as trees, when no scope column is masked |
| RewriteFacts.ScopedReadsBack | sql_query_api/services/policy_engine.py:566-569 | If the original WHERE, written out, reads back as itself, so does the scoped one: no bare OR comes to stand under an added AND |
| GovernedQuery.MaskedOnCutDatabase | sql_query_api/services/query_gateway.py:169-176 | Then the statement that is executed returns the masked statement's answer on the cut database |
| GovernedQuery.MaskedScopeColumn | sql_query_api/services/query_gateway.py:169-176 | When a scope column is masked, the WHERE of every SELECT that names a table keeps no row, whatever the original WHERE |
| GovernedQuery.MaskedScopeColumnEmpties | sql_query_api/services/query_gateway.py:169-176 | So every such SELECT returns nothing; if it is one group without GROUP BY, because it aggregates or has a HAVING, it returns at most the row of the empty group |
| GovernedQuery.GatewayHidesTheRest | sql_query_api/services/query_gateway.py:169-204 | Scope, mask, run, filter and hide in the repository, mask again: databases that agree on in-scope rows and unmasked columns, in all tables or in those the statement may read, make the gateway return the same records or the same refusal; for statements that list their columns and, if masked names are plain identifiers and the row filter does not look at masked columns, for stars of the root too |
| ResultMasking.ColumnFilterPublic | sql_query_api/dependencies/dependency_container.py:41-57 | The configured row filter looks at no masked column if and only if its own column is not masked |
| Gateway.AnswerDependsOnGranted | sql_query_api/services/query_gateway.py:160-233 | The whole way from policies to records: the answer depends on no table that the policies do not grant, no row out of the caller's scope and no masked column, as long as every table is granted that an allowed statement reads under the name of one of its CTEs |
| Gateway.AllowedReadsGranted | sql_query_api/services/query_gateway.py:217-226 | An allowed statement reads granted tables only if and only if those tables are granted that it reads under the name of one of its CTEs |
| Gateway.AllowedReadsMore | sql_query_api/services/query_gateway.py:217-226 | The input where it reads more: with one allow policy, on p, the decision allows `WITH s AS (SELECT * FROM s) SELECT * FROM p, s`, which reads s |
| GatewayDecision.AllowedTablesOccur | sql_query_api/services/query_gateway.py:217-226 | Every table that occurs anywhere in an allowed statement, and is no CTE's, is allowed by a policy whose fields all fit the caller and forbidden by none |
| GatewayDecision.AllowedColumnsOccur | sql_query_api/services/query_gateway.py:217-226 | Every column that occurs anywhere in an allowed statement is listed by a policy that allows one of its tables, or none of these lists columns; for a star at the root the star is |
| GatewayDecision.AllowedStarListed | sql_query_api/services/query_gateway.py:217-226 | An allowed statement with a star at the root has the star listed, if anything is |
| GatewayDecision.TouchedOccur | sql_query_api/repositories/sql_validators/ast_analyzer.py:155-168 | The decision is on exactly the tables that occur and are no CTE's, if there are any |
| GatewayDecision.FallsBack | sql_query_api/services/query_gateway.py:217-226 | Without such a table, or without a column, the decision is on what the text-based fallback finds |
| GatewayDecision.StarListed | sql_query_api/repositories/sql_validators/ast_analyzer.py:177-181 | A SELECT that lists a star, under any WITH clauses, has its star at the root |
| GatewayDecision.RootStars | sql_query_api/repositories/sql_validators/ast_analyzer.py:177-181 | And no other statement has |
| TablesRead.ReadsReported | sql_query_api/repositories/sql_validators/ast_analyzer.py:155-168 | The analysis reports every table that a statement reads from the database if and only if no such table bears the name of a CTE of the statement |
| TablesRead.ShadowedTable | sql_query_api/repositories/sql_validators/ast_analyzer.py:155-168 | The smallest input where it does not: `WITH t AS (SELECT * FROM t) SELECT * FROM t` reads t and the analysis reports no table (`tables_touched` then falls back to the text) |
| ResultMasking.MaskRowsCovers | sql_query_api/services/policy_engine.py:608-627 | `mask_rows` nulls every result column named like a masked one, without the alias map, if and only if each masked name normalizes to a nonempty masked name |
| ResultMasking.RecordsEqual | sql_query_api/services/policy_engine.py:608-627 | Answers that agree in the unmasked columns become the same records, through any hiding of sensitive columns and any row filter that does not look at masked columns |
| MaskedRecords.RecordsExactly | sql_query_api/services/policy_engine.py:608-627 | One record of each row; under each output name NULL if the name normalizes to a masked column or is traced to one, the marker if it is sensitive, and otherwise the cell of the last column of that name |
| MaskedRecords.FilteredRecords | sql_query_api/repositories/sql_query_repository.py:316-319 | With a row filter, the records of the rows that pass it, in their order |
| ScopingLimits.OuterJoinExact | sql_query_api/services/policy_engine.py:556-569 | Where scoping stops preserving meaning: `SELECT * FROM f WHERE w`, with f ending in a join of any kind, scoped on a database, returns what the original returns on the cut database if and only if every row that the join pads there in the place of a directly named table fails w |
| ScopingLimits.OuterJoinOfTables | sql_query_api/services/policy_engine.py:556-569 | For two tables without WHERE, LEFT, RIGHT or FULL: if and only if every in-scope row of a kept side has an in-scope match on the other |
| ScopingLimits.CteExact | sql_query_api/services/policy_engine.py:499-525 | `WITH c AS (body) SELECT * FROM c WHERE w` keeps its meaning under scoping if and only if every row of the CTE that passes w has the subject's values in the CTE's columns of those names, since CTE references are scoped like tables |
| ScopingLimits.CteRenames | sql_query_api/services/policy_engine.py:499-525 | A CTE that exports another column under the scope column's name: meaning is kept if and only if every in-scope row has the subject's value in that other column too |
| MaskingLimits.StarReturnsTable | sql_query_api/services/query_gateway.py:200-204 | Where masking relies on `mask_rows`: a masked `SELECT *` returns the table with its masked columns, and DISTINCT compares them |
| MaskingLimits.DistinctStarLeaks | sql_query_api/services/query_gateway.py:169-204 | Two databases that differ in a masked column only get different records from `SELECT DISTINCT *`, whatever the alias map |
| MaskingLimits.OrdinalGroupLeaks | sql_query_api/services/query_gateway.py:169-204 | The same for `SELECT * ... GROUP BY 1, 2` |
| MaskingLimits.OrdinalSortLeaks | sql_query_api/services/query_gateway.py:169-204 | The same for `SELECT * ... ORDER BY 2 LIMIT 1`: the record shown depends on the masked column |
| MaskingLimits.UnionStarLeaks | sql_query_api/services/query_gateway.py:169-204 | The same for a star in the right branch of UNION ALL, whose values come under the names of the left branch |
| MaskingLimits.ScalarStarLeaks | sql_query_api/services/query_gateway.py:169-204 | The same for `SELECT (SELECT * FROM t) AS top`, if the alias is not traced to the column |
| MaskingLimits.InStarLeaks | sql_query_api/services/query_gateway.py:169-204 | The same for `SELECT 1 IN (SELECT * FROM t) AS hit`, if the alias is not traced to the column |
| MaskingLimits.RowFilterLeaks | sql_query_api/repositories/sql_query_repository.py:316-319 | The same for `SELECT *` through a row filter on a masked column, which runs before `mask_rows` |
| MaskingLimits.ScalarStarShows | sql_query_api/services/query_gateway.py:174-176 | The masking rewrite leaves `(SELECT * FROM t)` over a one-column table as a value showing that column |
| MaskingLimits.InStarShows | sql_query_api/services/query_gateway.py:174-176 | It leaves `v IN (SELECT * FROM t)` over a one-column table testing membership in that column |
| Rewrites.Resolve | sql_query_api/services/policy_engine.py:540-547 | The loop resolves every restriction in insertion order, a later column replacing an equal one, or fails at the first absent attribute: the function whose values `Subjects.ResolvedScope` gives |
| Rewrites.RowScopeFromTables | sql_query_api/services/policy_engine.py:499-525 | A qualifier is filed under a table name if and only if FROM or JOIN names that table directly under that qualifier |
| Rewrites.AddScope | sql_query_api/services/policy_engine.py:556-569 | The nested loops conjoin every predicate, columns outside and sorted qualifiers inside, to the given WHERE |
| RewrittenJudgements.StaysReadOnly | sql_query_api/repositories/sql_validators/ast_analyzer.py:125-153 | A rewritten statement is strictly read-only if and only if the original is, so the tree part of the second check at `sql_query_repository.py:327` passes when the first did |
| RewrittenJudgements.SameTables | sql_query_api/repositories/sql_validators/ast_analyzer.py:155-168 | Both rewrites leave the table and CTE names unchanged, so the tables audited are the tables decided on |
| RewrittenJudgements.ColumnsRewritten | sql_query_api/repositories/sql_validators/ast_analyzer.py:170-188 | No column node with a masked name remains; unmasked columns of the original remain; nothing is added but scope columns |
| RewrittenJudgements.NoNewUnresolvedAlias | auth0_api/app/services/text_to_sql_service.py:400-457 | The alias check complains of a rewritten statement only where it complains of the original |
| LexicalScope.WellScopedAccepted | auth0_api/app/services/text_to_sql_service.py:400-457 | The alias check never complains of a statement in which every qualifier is visible by SQL's scoping rules |
| LexicalScope.StaysWellScoped | sql_query_api/services/policy_engine.py:528-605 | A lexically well-scoped statement stays so under both rewrites |
| StaticJudgements.ExtractTables | sql_query_api/repositories/sql_validators/ast_analyzer.py:155-168 | The folded table names that are nonempty and no CTE name, each once, in the order in which they first occur among the nodes |
| StaticJudgements.ExtractReferencedColumns | sql_query_api/repositories/sql_validators/ast_analyzer.py:170-188 | `*` alone for a star of the root SELECT, behind WITH or not, otherwise exactly the folded nonempty column names |
| StaticJudgements.FindUnresolvedTableAliases | auth0_api/app/services/text_to_sql_service.py:400-457 | Exactly the final segments of qualifiers that no table name, table alias, CTE or subquery alias declares |
| Occurrences.ReadOnlyExactly | sql_query_api/repositories/sql_validators/ast_analyzer.py:125-153 | A single statement is strictly read-only if and only if no data-modifying statement, INTO, row lock or forbidden function occurs in it at any depth |
| Occurrences.UnreadableRefused | sql_query_api/repositories/sql_validators/ast_analyzer.py:139-151 | Each of these, wherever it stands, refuses the statement |
| Occurrences.FunctionSpelled | sql_query_api/repositories/sql_validators/ast_analyzer.py:87-99 | Quoted, qualified or in any case, a function has one name for the check |
| Occurrences.TableNamesOccur | sql_query_api/repositories/sql_validators/ast_analyzer.py:155-168 | A table name is extracted if and only if some table source anywhere has it |
| Occurrences.ColumnNamesOccur | sql_query_api/repositories/sql_validators/ast_analyzer.py:183-188 | A column name is extracted if and only if some column or qualified star anywhere has it |
| Occurrences.AliasesResolvedExactly | auth0_api/app/services/text_to_sql_service.py:400-457 | The alias check accepts a statement if and only if the last part of every qualifier that occurs is declared somewhere in it, by a table, its alias, a WITH clause or a subquery in FROM |
| Policies.PolicyEvaluator.Evaluate | sql_query_api/services/policy_engine.py:342-396 | The decision of the specification `Decide`: deny precedence, table gate, column gate, merged scopes in dict order, masked columns, and refusal reasons down to the first absent attribute; `PolicyFields` gives it by the fields of the policies |
| Policies.PolicyEvaluator.MergeGrants | sql_query_api/services/policy_engine.py:382-386 | The loop merges scopes in the order of a dict, later policies overriding in place, and unites masked columns |
| Policies.PolicyEvaluator.EffectiveAccess | sql_query_api/services/policy_engine.py:398-453 | The loop over policies yields the surface of the specification `Surface`; `PolicyFields` gives it by the fields of the policies |
| PolicyFields.MisfitIgnored | sql_query_api/services/policy_engine.py:332-340 | A policy of another organisation, principal, role, database or action changes neither any decision nor any display, wherever it stands among the policies |
| PolicyFields.FittingDenyRefuses | sql_query_api/services/policy_engine.py:361-363 | A deny whose fields all fit the caller and a table of the query refuses the query, is named in the decision, and hides the table |
| PolicyFields.FittingAllowGrants | sql_query_api/services/policy_engine.py:365-374 | An allow whose fields all fit grants and shows its table, when no deny fits; on its own, without lists and scope, it allows the query |
| PolicyFields.DecidedByFields | sql_query_api/services/policy_engine.py:342-396 | A query is allowed if and only if it names a table, each has an allow whose fields fit and no deny whose fields fit, each referenced column is listed by such an allow if any of them lists columns, and none of their restrictions lacks its attribute |
| PolicyFields.ReasonsByFields | sql_query_api/services/policy_engine.py:356-381 | Which reason a refusal gives, by the same fields |
| PolicyFields.AbsentByFields | sql_query_api/services/policy_engine.py:387-389 | A refusal for an absent attribute names that of the first restriction that lacks it |
| PolicyFields.DenyIdsByFields | sql_query_api/services/policy_engine.py:361-363 | The ids of a deny are those of the denies that fit some table |
| PolicyFields.AllowIdsByFields | sql_query_api/services/policy_engine.py:390-396 | The ids of an allow are those of the allows that fit some table |
| PolicyFields.DisplayedByFields | sql_query_api/services/policy_engine.py:398-453 | A table is displayed if and only if a policy other than a deny whose fields fit names it and no deny whose fields fit covers it |
| PolicyFields.Unconfigured | sql_query_api/services/policy_engine.py:351-352 | Without a policy document every query is allowed, unrestricted and unmasked, and everything is shown |
| PolicyFields.NothingNamed | sql_query_api/services/policy_engine.py:353-354 | With one, a query in which no table is found is refused |
| PolicyTheorems.TableGateMeans | sql_query_api/services/policy_engine.py:356-374 | A nonempty table list passes the deny and table gates if and only if each of its tables has an allow policy of its own and no matching deny |
| PolicyTheorems.SurfaceTableMeans | sql_query_api/services/policy_engine.py:412-429 | A table is displayed if and only if some policy other than a deny names it and no matching deny covers it |
| PolicyTheorems.DisplayMirrorsTables | sql_query_api/services/policy_engine.py:221-229 | `table_accessible` and the decision's gates agree on every nonempty list of plain table names if and only if no table is shown solely by an effect that is neither allow nor deny; for allow and deny policies they always agree |
| PolicyTheorems.DottedNameDiffers | sql_query_api/services/policy_engine.py:237-242 | For a qualified name they differ: `hr.emp` is displayed by its last part and decided on as a whole |
| PolicyTheorems.AllowedColumnsDisplayed | sql_query_api/services/policy_engine.py:237-249 | When a decision gated by column lists allows, every referenced column is accessible on every table of the query |
| PolicyTheorems.ColumnsMirrored | sql_query_api/services/policy_engine.py:431-441 | For a query over the whole displayed schema, with column lists on displayed tables and in allow policies only, both sides compute the same column union |
| PolicyTheorems.ColumnGateMirrored | sql_query_api/services/policy_engine.py:244-249 | Over such a query the column gate passes if and only if every referenced column is accessible on every table |
| PolicyTheorems.AllowedExactly | sql_query_api/services/policy_engine.py:342-396 | A query is allowed if and only if it names a table, every table has its own allow policy and no matching deny, every referenced column is listed by some granting policy if any of them has a list, and every restriction is answered by the subject; `PolicyFields.DecidedByFields` says the same by fields |
| PolicyTheorems.AllowedMasks | sql_query_api/services/policy_engine.py:382-396 | An allow masks every column that some granting policy masks and no other, all of them displayed as masked |
| PolicyTheorems.AllowedRestricts | sql_query_api/services/policy_engine.py:382-396 | An allow restricts every column that some granting policy restricts and no other, each once |
| PolicyTheorems.LastGrantWins | sql_query_api/services/policy_engine.py:384-385 | The last grant that restricts a column names the subject attribute |
| PolicyTheorems.OrderIrrelevant | sql_query_api/services/policy_engine.py:356-396 | Permuting or repeating policies changes no verdict, kind of reason, restriction or masked set when no two grants map a scope column to different attributes |
| PolicyTheorems.TableOrderIrrelevant | sql_query_api/services/policy_engine.py:342-396 | The decision is the same for any two lists of the same tables |
| PolicyTheorems.OrderMattersOnConflict | sql_query_api/services/policy_engine.py:382-386 | Restrictions are the same under every permutation of the grants if and only if no two of them conflict |
| PolicyTheorems.DenyOnlyRefuses | sql_query_api/services/policy_engine.py:361-363 | Adding a deny policy anywhere never turns a refusal into an allow, and an allow that survives is unchanged |
| PolicyTheorems.AllowedRestrictionsResolve | sql_query_api/services/policy_engine.py:387-389 | After an allow, row scoping refuses if and only if an attribute is None that shares its name with a member of the principal's class, which `getattr` mistakes for it |
| SlidingWindow.CheckCounts | sql_query_api/middlewares/rate_limit_middleware.py:202-222 | The verdict on the pruned deque is the verdict of counting the whole history in (now - window, now] |
| SlidingWindow.QueueExact | sql_query_api/middlewares/rate_limit_middleware.py:202-222 | After a check the deque is exactly the charges of the history later than now - window |
| SlidingWindow.NeverRefused | sql_query_api/middlewares/rate_limit_middleware.py:202-222 | A caller whose calls are at least `gap` apart with `max * gap >= window` is charged every time and never refused |
| SlidingWindow.IdleAdmitted | sql_query_api/middlewares/rate_limit_middleware.py:202-222 | A key with a positive limit that was idle for a whole window is admitted, whatever happened before |
| RateLimiter.RateLimitMiddleware.CheckLimit | sql_query_api/middlewares/rate_limit_middleware.py:202-222 | Only the deque of the key changes, to the pruned one, with the charge if there was room; no positive limit, no change |
| RateLimiter.RateLimitMiddleware.AllowRequest | sql_query_api/middlewares/rate_limit_middleware.py:153-183 | The four tables and the verdict are those of the specification `Allow`, which `LimiterFields.CheckedByFields` gives by the fields of the request and of the configuration |
| RateLimiter.RateLimitMiddleware.AllowLegacyRequest | sql_query_api/middlewares/rate_limit_middleware.py:185-200 | The same check on one table, except that a limit of zero refuses everyone |
| RateLimiter.RateLimitMiddleware.Dispatch | sql_query_api/middlewares/rate_limit_middleware.py:63-85 | Without a legacy limit and with some positive layered one the layered check decides, otherwise the legacy one; the other's tables stay as they are, and with no positive limit at all every request is refused |
| RateLimiter.ChargedExactly | sql_query_api/middlewares/rate_limit_middleware.py:153-183 | A request is charged to exactly the enabled dimensions before the one that refuses it, or to all enabled ones; every other deque of every dimension is untouched, the refusing one only pruned |
| RateLimiter.ChargesBounded | sql_query_api/middlewares/rate_limit_middleware.py:202-222 | Over any chronological run, for any key of a dimension with a positive limit and any instant t, at most the limit of charges fall in (t - window, t] |
| RateLimiter.LegacyBounded | sql_query_api/middlewares/rate_limit_middleware.py:185-200 | The same for the legacy limiter: at most its limit of admitted calls of one client in any window |
| RateLimiter.ForwardedBounded | sql_query_api/middlewares/rate_limit_middleware.py:153-183 | Forwarded traffic respects every limit of every dimension at once, in any window; `LimiterFields` has the four bounds by field |
| RateLimiter.VerdictCounts | sql_query_api/middlewares/rate_limit_middleware.py:153-183 | A request is refused by a dimension only if its key has no room by counting the whole history, and every enabled dimension it passed had room |
| LimiterFields.CheckedByFields | sql_query_api/middlewares/rate_limit_middleware.py:153-183 | Address, principal, tenant and database are checked in this order, each against its own limit and in its own table; the first whose key has no room refuses, those before it are charged and those behind it untouched |
| LimiterFields.IpBounded | sql_query_api/middlewares/rate_limit_middleware.py:160-165 | Of the requests of one address, at most the limit for addresses are forwarded in any window of any chronological run |
| LimiterFields.PrincipalBounded | sql_query_api/middlewares/rate_limit_middleware.py:166-171 | Of the requests of one principal, at most the limit for principals |
| LimiterFields.TenantBounded | sql_query_api/middlewares/rate_limit_middleware.py:172-177 | Of the requests of one tenant, at most the limit for tenants |
| LimiterFields.DatabaseBounded | sql_query_api/middlewares/rate_limit_middleware.py:178-183 | Of the requests to one database, at most the limit for databases |
| Admission.StepSafe | sql_query_api/services/query_gateway.py:129-158 | Every step of every request keeps, for every tenant: the counter counts the requests in flight, within the limit; free permits and running requests add up to the concurrency limit |
| Admission.LimitsHold | sql_query_api/services/query_gateway.py:129-158 | In every interleaving: the counter is waiting plus running plus leaving and within the queue limit, running stays within the concurrency limit, free permits are the rest |
| Admission.ClampIdle | sql_query_api/services/query_gateway.py:211-212 | In every interleaving the clamp of the counter at zero never takes effect |
| Admission.EverythingReturned | sql_query_api/services/query_gateway.py:206-215 | When all requests of a tenant have left, in whichever ways they ended, its quota is as new; `Drained` shows that this always can come about |
| Admission.EnterTakes | sql_query_api/services/query_gateway.py:131-141 | Entering makes the request wait, takes one place and no permit |
| Admission.AcquireTakes | sql_query_api/services/query_gateway.py:143-149 | Acquiring makes it run, takes one permit and keeps the place |
| Admission.FinishReturns | sql_query_api/services/query_gateway.py:206-208 | Finishing, in whichever way, gives the permit back and keeps the place |
| Admission.LeaveReturns | sql_query_api/services/query_gateway.py:211-212 | Leaving removes the request and gives the place back |
| Admission.RunsAndLeaves | sql_query_api/services/query_gateway.py:129-215 | A request that enters, acquires, finishes and leaves restores the state it found, quota and requests |
| Admission.GivesUpAndLeaves | sql_query_api/services/query_gateway.py:129-215 | So does one that enters, gives up or times out, and leaves |
| Admission.Drained | sql_query_api/services/query_gateway.py:206-215 | From every safe state, steps of a tenant's own requests lead to a state without any of them and with its quota as new |
| Admission.TurnedAwayExactly | sql_query_api/services/query_gateway.py:129-141 | A request is turned away if and only if as many of the tenant's requests are in flight as the queue limit |
| Admission.NoIdlePermit | sql_query_api/services/query_gateway.py:143-158 | A waiting request that cannot proceed faces as many running requests of its tenant as the concurrency limit |
| Admission.Isolation | sql_query_api/services/query_gateway.py:102-111 | No step of one tenant's request changes the quota or the requests of another tenant |
| Admission.GovernedQueryGateway.GetTenantQuota | sql_query_api/services/query_gateway.py:102-111 | Returns the tenant's own quota object, created on first use, never shared |
| Admission.GovernedQueryGateway.EnterQueue | sql_query_api/services/query_gateway.py:129-141 | The locked section is the step `Enter` |
| Admission.GovernedQueryGateway.AcquireSemaphore | sql_query_api/services/query_gateway.py:143-149 | Obtaining the permit is the step `Acquire` |
| Admission.GovernedQueryGateway.ReleaseSemaphore | sql_query_api/services/query_gateway.py:206-208 | The first statement of the `finally` is the step `Finish` of a running request and `GiveUp` of a waiting one |
| Admission.GovernedQueryGateway.LeaveQueue | sql_query_api/services/query_gateway.py:211-215 | The second locked section is the step `Leave`: the counter goes down by one, not below zero, and the request is gone |
| AuditChain.AuditLog.LogAuditEvent | sql_query_api/config/app_logger.py:361-400 | Appends the event with the payload, the context's head before and the digest of both, and makes that digest the context's head; nothing else changes |
| AuditChain.RunSound | sql_query_api/config/app_logger.py:370-400 | With any forks, restarts and resets, every event's previous hash is empty or the digest of an earlier event, and its digest is that of previous hash and payload |
| AuditChain.EveryEventAnchored | sql_query_api/config/app_logger.py:370-400 | In every run the links from any event lead back to a chain start, and its digest is that of the payloads on the way |
| AuditHistory.NextLinks | sql_query_api/config/app_logger.py:370-397 | The next event of a context links to the one before it by that one's digest, whatever other contexts do in between |
| AuditHistory.LogsChain | sql_query_api/config/app_logger.py:370-397 | Logging payloads in a context whose chain is empty adds exactly one event of each, with the chain so far before it and the chain up to it as its digest |
| AuditHistory.SinkComplete | sql_query_api/config/app_logger.py:386-400 | The events of a log are the logged payloads, in order: none is lost, added or changed |
| AuditHistory.ForkLinks | sql_query_api/config/app_logger.py:48-87 | The first event of a forked context links to where its parent was, and leaves the parent there |
| AuditHistory.ResetUndoesRestart | sql_query_api/config/app_logger.py:75-87 | A restarted chain starts empty, and resetting it with its own token takes up the old one again, whatever happened in between |
| AuditHistory.HeadsRecord | sql_query_api/config/app_logger.py:370-397 | In every run, with any forks, restarts and resets, each context's head is the chain of the payloads that lead to it |
| AuditHistory.RunsTamperEvident | sql_query_api/config/app_logger.py:370-400 | Two runs that end at one head have the same payloads leading to it, or `Divergence` computes two inputs with one digest |
| AuditChain.UniqueParse | sql_query_api/config/app_logger.py:377-384 | A hashed text splits into previous digest and payload in one way only |
| AuditChain.TamperEvident | sql_query_api/config/app_logger.py:370-400 | Two chains with the same head carry the same payloads, or `Divergence` computes two different inputs with one digest |
| AuditChain.EventsTamperEvident | sql_query_api/config/app_logger.py:370-400 | The same for paths of events in any two logs |
| SessionStore.SessionBackend.CreateSession | auth0_api/app/auth/session_store.py:87-101 | One creation is one step of the backend in use |
| SessionStore.SessionBackend.GetSession | auth0_api/app/auth/session_store.py:104-127 | One read, with its lazy deletions, is one step of the backend in use |
| SessionStore.SessionBackend.RevokeSession | auth0_api/app/auth/session_store.py:130-137 | One revocation is one step of the backend in use |
| SessionStore.BackendsRefineMap | auth0_api/app/auth/session_store.py:87-137 | Over every timely run, either backend answers every read as a map with absolute expiry that deletes nothing on reading |
| SessionStore.BackendsAgree | auth0_api/app/auth/session_store.py:87-137 | The Redis and the in-memory backend give the same answers over every timely run |
| SessionStore.NeverReturnedAgain | auth0_api/app/auth/session_store.py:104-137 | A revoked or expired id that is not created anew is never returned again |
| SessionStore.ReadBack | auth0_api/app/auth/session_store.py:87-127 | On either backend, after any other traffic, a session that is neither revoked nor created anew is read with the user, access token and csrf token it was created with, until its time to live has passed, and not from then on |
| SessionStore.RevokedIsGone | auth0_api/app/auth/session_store.py:104-137 | After a revocation it is not read until it is created anew |
| SqlList.SplitSqlList | sql_query_api/services/policy_engine.py:84-118 | The loop computes the trimmed nonempty pieces between top-level commas |
| SqlList.JoinCut | sql_query_api/services/policy_engine.py:84-118 | The untrimmed pieces joined by commas are the text: no character is lost or moved |
| SqlList.CutJoin | sql_query_api/services/policy_engine.py:84-118 | Cutting undoes joining for every nonempty list of pieces that close their quotes and brackets and hold no top-level comma |
| SqlList.SplitJoin | sql_query_api/services/policy_engine.py:84-118 | Splitting the comma-join of nonempty trimmed closed items returns exactly the items |
| SqlList.SplitPadded | sql_query_api/services/policy_engine.py:84-118 | With any blanks around the items, splitting returns the trimmed nonempty items |
| SqlListItems.ItemsSplit | sql_query_api/services/policy_engine.py:84-118 | Items made of plain characters, quoted texts and bracketed texts of any depth come back one by one from the list they are joined to, whatever commas stand inside quotes and brackets |
| SqlListItems.CommaSplits | sql_query_api/services/policy_engine.py:84-118 | After a text without quotes a comma splits if and only if no end of the text opens more brackets than it closes |
| BoundedFetch.FetchBounded | sql_query_api/repositories/sql_query_repository.py:368-381 | Terminates; returns all rows in order if and only if there are at most the limit, fails otherwise; never holds more than limit + 1 rows |
| IdentifierFacts.QualifiedMeans | sql_query_api/services/policy_engine.py:74-81 | A name with blanks and quoting around it and a qualification before it normalizes to the name in lower case |
| IdentifierFacts.FoldMeans | sql_query_api/services/policy_engine.py:585-595 | Lower-cased names are equal if and only if they differ at most in the case of letters |

### Where the code and its documentation differ

* The docstring of `EffectiveAccess` says display mirrors the decision exactly. The display files every effect
  but deny under its table while the decision grants by allow alone; `DisplayMirrorsTables` gives the exact
  condition.
* A comment in `execute` says that values derived from masked columns can never reach the result rows. Stars are
  not expanded by the rewrite, so a star that feeds DISTINCT, a set operation, IN or a scalar subquery, or whose
  columns ORDER BY or GROUP BY point at by number, is an exception; the `hiding` rule of `Fragment` names these,
  and `MaskingLimits` has two databases for each.
* `extract_tables` promises all physical tables; `ReadsReported` gives the exact condition, and `AllowedReadsGranted`
  what it means for the decision.
* `is_strictly_read_only` promises a statement without dangerous functions. Functions are looked up by exact name, and
  the list has `query_to_xml` and `table_to_xml` but not `query_to_xml_and_xmlschema`, `table_to_xml_and_xmlschema`,
  `schema_to_xml` and `database_to_xml`, which read tables by name as well.
* The legacy limiter has no "no limit" case: with a limit of zero it refuses everyone.

## Left out

- GovernedQuery.MaskingHidesColumns: the `hiding` rule is sufficient and not necessary; `MaskingLimits` has a statement of each excluded kind for which masked values do show.
- GovernedQuery.ScopingHidesRows: like every theorem here that compares two databases, it gives both the same `Engine`, so a function's value depends on its arguments alone. Functions that read tables themselves, by name or by running text as SQL, are outside the theorems.
- GatewayView.GatewayIsView: that the statement calls nothing else by a masked name is sufficient and not necessary; `SELECT salary FROM (SELECT bonus AS salary FROM t) AS d` is masked to NULL in the statement and would not be on the view.
- GovernedQuery.GatewayHidesTheRest: one way for the same reason; a statement outside the condition may still happen not to show anything.
- GovernedQuery.ScopingPreservesMeaning: the condition on joins and CTE references is syntactic; `ScopingLimits` gives the exact condition, which depends on the rows, at one outer join and at one CTE reference.
- Rewrites.AddScope: trees are values; updating in place, aliasing of nodes and the order in which the walk visits SELECTs are not captured.
- StaticJudgements.ExtractTables: the order of the nodes is that of the model's tree, not the library's breadth-first walk; `PolicyTheorems.TableOrderIrrelevant` shows that no decision depends on it.
- StaticJudgements.FindUnresolvedTableAliases: the parse failures and the wording of the message.
- LexicalScope.WellScopedAccepted: VALUES lists are not in the fragment; an aliased `(VALUES ...) AS v` is well-scoped SQL that the alias check does complain of.
- RewrittenJudgements.StaysReadOnly: the name of a typed function node is modelled as the function's; the parser library takes it from the first argument of such a node. The masked name `*` is excluded, since a qualified star is a column of that name in the library.
- GovernedQuery.HeadersKept: an unaliased scalar subquery whose first item is a star has the header `?column?` in the model, and the name of its column in the database.
- Policy documents and their parsing: policies are given lower-cased as `Policy.from_dict` makes them.
- SQL text, its parser and printer, and the regular-expression fallbacks: statements start and end as trees, and what the fallbacks find is a parameter.
- Statements that a database rejects: evaluation is total, an unresolved name is NULL, a scalar subquery takes its first row, the branches of a set operation are fitted to one width, a number that is no place of an output column and a NULL (as a masked key becomes) are constant keys. Runtime errors are not modelled.
- Case-sensitive quoted identifiers: names are compared lower-cased, and lower-casing and trimming are those of ASCII. Schema qualifications of tables: a table is known by its last name.
- NATURAL and USING joins, parenthesised joins, a RIGHT or FULL join behind a comma, LATERAL, table functions, column-alias lists, whole-row references, window functions, aggregates that belong to an outer SELECT, OFFSET, LIMIT with an expression, DISTINCT ON, VALUES lists, INTERSECT ALL and EXCEPT ALL, `= ANY`, `ALL` and ARRAY subqueries, WITH RECURSIVE, ORDER BY or LIMIT over a set operation, and CASE with an operand (its WHENs are given as comparisons).
- The alias map that `mask_rows` derives from SQL text: it is a parameter, and the theorems hold for every such map.
- BoundedFetch.FetchBounded: the byte limit on results, which runs on the fetched rows before they are masked, and that the pipeline of `Execute` turns too many rows into an error.
- `_ensure_limit` and cost estimation.
- asyncio's scheduler and the race inside `wait_for`: acquiring the semaphore is a step that happens or is given up. Requests are not proved to be served eventually.
- The rate limiter's keys: how an address, principal, tenant or database key is derived from a request.
- JSON, SHA-256 and timestamps of audit events: the hashed payload text is given and the digest function is a parameter; that digests are 64 hexadecimal digits is a hypothesis of the theorems that need it.
- Redis as a server: its expiry is exact, and stored values decode.
- Open Policy Agent, authentication, metrics, exporters, encryption, the user interface and deployment.
