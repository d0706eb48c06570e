/** The layered limits by the fields of the configuration and of the request: each of the four limits bounds the
    requests that carry its own key. */
module LimiterFields {
  import opened Wrappers
  import opened Sequences
  import opened SlidingWindow
  import opened RateLimiter

  // ---- One request ----

  predicate HasKey(key: Option<string>) {
    key.Some? && key.value != ""
  }

  /** What is left of the key's deque when it is checked. */
  function Recent(t: Table, key: string, cutoff: real): seq<real> {
    Prune(QueueOf(t, key), cutoff)
  }

  predicate Full(t: Table, key: Option<string>, max: int, cutoff: real) {
    HasKey(key) && max > 0 && |Recent(t, key.value, cutoff)| >= max
  }

  /** One table after a check that was reached or not: the key's deque pruned, and charged if it had room. */
  predicate Settled(before: Table, after: Table, reached: bool, key: Option<string>, max: int, cutoff: real, now: real)
  {
    if !reached || !HasKey(key) || max <= 0 then after == before
    else
      var recent := Recent(before, key.value, cutoff);
      after == before[key.value := if |recent| < max then recent + [now] else recent]
  }

  lemma TableChecked(t: Table, key: Option<string>, max: int, cutoff: real, now: real)
    requires HasKey(key)
    ensures var (after, ok) := CheckTable(t, key.value, max, cutoff, now);
      ok == !Full(t, key, max, cutoff) && Settled(t, after, true, key, max, cutoff, now)
  {
  }

  /** What one of the four checks comes to: its own field against its own limit, and no other table. */
  predicate OwnField(ts: Tables, after: Tables, ok: bool, limits: Limits, keys: Keys, d: Dimension, cutoff: real,
                     now: real) {
    match d
    case Ip =>
      && ok == !Full(ts.ip, keys.ip, limits.ip, cutoff) && after == ts.(ip := after.ip)
      && Settled(ts.ip, after.ip, true, keys.ip, limits.ip, cutoff, now)
    case Principal =>
      && ok == !Full(ts.principal, keys.principal, limits.principal, cutoff)
      && after == ts.(principal := after.principal)
      && Settled(ts.principal, after.principal, true, keys.principal, limits.principal, cutoff, now)
    case Tenant =>
      && ok == !Full(ts.tenant, keys.tenant, limits.tenant, cutoff) && after == ts.(tenant := after.tenant)
      && Settled(ts.tenant, after.tenant, true, keys.tenant, limits.tenant, cutoff, now)
    case Database =>
      && ok == !Full(ts.database, keys.database, limits.database, cutoff) && after == ts.(database := after.database)
      && Settled(ts.database, after.database, true, keys.database, limits.database, cutoff, now)
  }

  lemma FieldChecked(ts: Tables, limits: Limits, keys: Keys, d: Dimension, cutoff: real, now: real)
    ensures var (after, ok) := CheckDimension(ts, limits, keys, d, cutoff, now);
      OwnField(ts, after, ok, limits, keys, d, cutoff, now)
  {
    if HasKey(keys.Of(d)) {
      TableChecked(ts.Of(d), keys.Of(d), limits.Of(d), cutoff, now);
    }
  }

  /** Each check is reached only if those before it passed. */
  lemma Reached(rank: nat, ts: Tables, limits: Limits, keys: Keys, cutoff: real, now: real)
    requires rank < 4
    ensures var (after, ok) := CheckDimension(ts, limits, keys, At(rank), cutoff, now);
      AllowFrom(rank, ts, limits, keys, cutoff, now) ==
        if !ok then (after, Some(At(rank))) else if rank == 3 then (after, None)
        else AllowFrom(rank + 1, after, limits, keys, cutoff, now)
  {
  }

  predicate Refuses(refused: Option<Dimension>, ip: bool, principal: bool, tenant: bool, database: bool) {
    && (refused == Some(Ip) <==> ip)
    && (refused == Some(Principal) <==> !ip && principal)
    && (refused == Some(Tenant) <==> !ip && !principal && tenant)
    && (refused == Some(Database) <==> !ip && !principal && !tenant && database)
  }

  /** The first field whose key has no room refuses, and each table is settled for its own key and limit, up to
      that field. */
  lemma CheckedByFields(ts: Tables, limits: Limits, window: real, keys: Keys, now: real)
    ensures var refused, cutoff := Allow(ts, limits, window, keys, now).1, now - window;
      Refuses(refused, Full(ts.ip, keys.ip, limits.ip, cutoff),
              Full(ts.principal, keys.principal, limits.principal, cutoff),
              Full(ts.tenant, keys.tenant, limits.tenant, cutoff),
              Full(ts.database, keys.database, limits.database, cutoff))
    ensures var (after, refused) := Allow(ts, limits, window, keys, now);
      var cutoff := now - window;
      && Settled(ts.ip, after.ip, true, keys.ip, limits.ip, cutoff, now)
      && Settled(ts.principal, after.principal, refused != Some(Ip), keys.principal, limits.principal, cutoff, now)
      && Settled(ts.tenant, after.tenant, refused !in {Some(Ip), Some(Principal)}, keys.tenant, limits.tenant, cutoff,
                 now)
      && Settled(ts.database, after.database, refused !in {Some(Ip), Some(Principal), Some(Tenant)}, keys.database,
                 limits.database, cutoff, now)
  {
    var cutoff := now - window;
    var (a, first) := CheckDimension(ts, limits, keys, Ip, cutoff, now);
    var (b, second) := CheckDimension(a, limits, keys, Principal, cutoff, now);
    var (c, third) := CheckDimension(b, limits, keys, Tenant, cutoff, now);
    var (d, fourth) := CheckDimension(c, limits, keys, Database, cutoff, now);
    FieldChecked(ts, limits, keys, Ip, cutoff, now);
    FieldChecked(a, limits, keys, Principal, cutoff, now);
    FieldChecked(b, limits, keys, Tenant, cutoff, now);
    FieldChecked(c, limits, keys, Database, cutoff, now);
    Reached(0, ts, limits, keys, cutoff, now);
    Reached(1, a, limits, keys, cutoff, now);
    Reached(2, b, limits, keys, cutoff, now);
    Reached(3, c, limits, keys, cutoff, now);
  }

  // ---- Runs ----

  /** The arrivals that were forwarded in the window that ends at t. */
  ghost predicate ForwardedIn(limits: Limits, window: real, run: seq<Arrival>, arrivals: set<nat>, t: real) {
    forall i | i in arrivals ::
      i < |run| && Verdict(limits, window, run[..i + 1]).None? && t - window < run[i].now <= t
  }

  lemma {:induction false} CountedArrivals(limits: Limits, window: real, run: seq<Arrival>, arrivals: set<nat>, t: real,
                                           d: Dimension, key: string)
    requires ForwardedIn(limits, window, run, arrivals, t)
    requires forall i | i in arrivals :: run[i].keys.Of(d) == Some(key)
    ensures |arrivals| <= Count(Forwarded(limits, window, run, d, key), t - window, t)
    decreases |run|
  {
    if run == [] {
      assert arrivals == {};
    } else {
      var n := |run| - 1;
      var init, last := run[..n], run[n];
      forall i | i in arrivals - {n}
        ensures i < n && Verdict(limits, window, init[..i + 1]).None? && init[i] == run[i]
      {
        assert init[..i + 1] == run[..i + 1];
      }
      CountedArrivals(limits, window, init, arrivals - {n}, t, d, key);
      var before := Forwarded(limits, window, init, d, key);
      FilterAppend(Within(t - window, t), before, [last.now]);
      assert n in arrivals ==> run[..n + 1] == run;
      assert n !in arrivals ==> arrivals - {n} == arrivals;
    }
  }

  /** Any d, with the limit and the keys it stands for. */
  lemma ArrivalsBounded(limits: Limits, window: real, run: seq<Arrival>, arrivals: set<nat>, t: real, d: Dimension,
                        key: string)
    requires Chronological(run) && key != "" && limits.Of(d) > 0 && ForwardedIn(limits, window, run, arrivals, t)
    requires forall i | i in arrivals :: run[i].keys.Of(d) == Some(key)
    ensures |arrivals| <= limits.Of(d)
  {
    CountedArrivals(limits, window, run, arrivals, t, d, key);
    ForwardedWithin(limits, window, run, d, key, t);
  }

  /** In any window, no more requests of one address are forwarded than the limit for addresses. */
  lemma IpBounded(limits: Limits, window: real, run: seq<Arrival>, arrivals: set<nat>, t: real, key: string)
    requires Chronological(run) && key != "" && limits.ip > 0 && ForwardedIn(limits, window, run, arrivals, t)
    requires forall i | i in arrivals :: run[i].keys.ip == Some(key)
    ensures |arrivals| <= limits.ip
  {
    ArrivalsBounded(limits, window, run, arrivals, t, Ip, key);
  }

  /** No more requests of one principal than the limit for principals. */
  lemma PrincipalBounded(limits: Limits, window: real, run: seq<Arrival>, arrivals: set<nat>, t: real, key: string)
    requires Chronological(run) && key != "" && limits.principal > 0 && ForwardedIn(limits, window, run, arrivals, t)
    requires forall i | i in arrivals :: run[i].keys.principal == Some(key)
    ensures |arrivals| <= limits.principal
  {
    ArrivalsBounded(limits, window, run, arrivals, t, Principal, key);
  }

  /** No more requests of one tenant than the limit for tenants. */
  lemma TenantBounded(limits: Limits, window: real, run: seq<Arrival>, arrivals: set<nat>, t: real, key: string)
    requires Chronological(run) && key != "" && limits.tenant > 0 && ForwardedIn(limits, window, run, arrivals, t)
    requires forall i | i in arrivals :: run[i].keys.tenant == Some(key)
    ensures |arrivals| <= limits.tenant
  {
    ArrivalsBounded(limits, window, run, arrivals, t, Tenant, key);
  }

  /** No more requests to one database than the limit for databases. */
  lemma DatabaseBounded(limits: Limits, window: real, run: seq<Arrival>, arrivals: set<nat>, t: real, key: string)
    requires Chronological(run) && key != "" && limits.database > 0 && ForwardedIn(limits, window, run, arrivals, t)
    requires forall i | i in arrivals :: run[i].keys.database == Some(key)
    ensures |arrivals| <= limits.database
  {
    ArrivalsBounded(limits, window, run, arrivals, t, Database, key);
  }
}
