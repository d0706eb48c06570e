/** The layered limiter of `rate_limit_middleware.py`: four dimensions checked in order under one lock. */
module RateLimiter {
  import opened Wrappers
  import opened Sequences
  import opened SlidingWindow

  datatype Dimension = Ip | Principal | Tenant | Database {
    function Rank(): nat {
      match this
      case Ip => 0
      case Principal => 1
      case Tenant => 2
      case Database => 3
    }
  }

  /** The keys of a request; a dimension without a key, or with an empty one, is not checked. */
  datatype Keys = Keys(ip: Option<string>, principal: Option<string>, tenant: Option<string>,
                       database: Option<string>) {
    function Of(d: Dimension): Option<string> {
      match d
      case Ip => ip
      case Principal => principal
      case Tenant => tenant
      case Database => database
    }
  }

  datatype Limits = Limits(ip: int, principal: int, tenant: int, database: int) {
    function Of(d: Dimension): int {
      match d
      case Ip => ip
      case Principal => principal
      case Tenant => tenant
      case Database => database
    }
  }

  type Table = map<string, seq<real>>

  datatype Tables = Tables(ip: Table, principal: Table, tenant: Table, database: Table) {
    function Of(d: Dimension): Table {
      match d
      case Ip => ip
      case Principal => principal
      case Tenant => tenant
      case Database => database
    }

    function With(d: Dimension, t: Table): Tables {
      match d
      case Ip => this.(ip := t)
      case Principal => this.(principal := t)
      case Tenant => this.(tenant := t)
      case Database => this.(database := t)
    }

    function Queue(d: Dimension, key: string): seq<real> {
      QueueOf(Of(d), key)
    }
  }

  const NO_CHARGES := Tables.Tables(map[], map[], map[], map[])

  /** A defaultdict of deques. */
  function QueueOf(t: Table, key: string): seq<real> {
    if key in t then t[key] else []
  }

  /** `_check_limit`: no positive limit, no check. */
  function CheckTable(t: Table, key: string, max: int, cutoff: real, now: real): (Table, bool) {
    if max <= 0 then (t, true)
    else
      var (queue, admitted) := Check(QueueOf(t, key), max, cutoff, now);
      (t[key := queue], admitted)
  }

  predicate Keyed(keys: Keys, d: Dimension) {
    keys.Of(d).Some? && keys.Of(d).value != ""
  }

  /** One dimension of `_allow_request`. */
  function CheckDimension(ts: Tables, limits: Limits, keys: Keys, d: Dimension, cutoff: real, now: real): (Tables,
                          bool) {
    if !Keyed(keys, d) then (ts, true)
    else
      var (t, admitted) := CheckTable(ts.Of(d), keys.Of(d).value, limits.Of(d), cutoff, now);
      (ts.With(d, t), admitted)
  }

  /** The order of the checks. */
  function At(rank: nat): (d: Dimension)
    requires rank < 4
    ensures d.Rank() == rank
  {
    if rank == 0 then Ip else if rank == 1 then Principal else if rank == 2 then Tenant else Database
  }

  /** The checks from a dimension on: the dimension that refuses, if any. */
  function AllowFrom(rank: nat, ts: Tables, limits: Limits, keys: Keys, cutoff: real, now: real): (Tables,
                     Option<Dimension>)
    decreases 4 - rank, keys
  {
    if rank >= 4 then (ts, None)
    else
      var (t, ok) := CheckDimension(ts, limits, keys, At(rank), cutoff, now);
      if ok then AllowFrom(rank + 1, t, limits, keys, cutoff, now) else (t, Some(At(rank)))
  }

  /** `_allow_request`. */
  function Allow(ts: Tables, limits: Limits, window: real, keys: Keys, now: real): (Tables, Option<Dimension>) {
    AllowFrom(0, ts, limits, keys, now - window, now)
  }

  // ---- The middleware ----

  /** A defaultdict object, passed by reference to the check. */
  class Storage {
    var table: Table

    constructor ()
      ensures table == map[]
    {
      table := map[];
    }
  }

  class RateLimitMiddleware {
    const limits: Limits
    const legacyMax: int
    const window: real
    const ipRequests: Storage
    const principalRequests: Storage
    const tenantRequests: Storage
    const databaseRequests: Storage
    const legacyRequests: Storage

    ghost predicate Valid() {
      && ipRequests != principalRequests && ipRequests != tenantRequests && ipRequests != databaseRequests
      && principalRequests != tenantRequests && principalRequests != databaseRequests
      && tenantRequests != databaseRequests
      && legacyRequests !in {ipRequests, principalRequests, tenantRequests, databaseRequests}
    }

    ghost function Layers(): set<object> {
      {ipRequests, principalRequests, tenantRequests, databaseRequests}
    }

    function Snapshot(): Tables
      reads ipRequests, principalRequests, tenantRequests, databaseRequests
    {
      Tables.Tables(ipRequests.table, principalRequests.table, tenantRequests.table, databaseRequests.table)
    }

    constructor (limits: Limits, legacyMax: int, window: real)
      ensures Valid() && Snapshot() == NO_CHARGES && legacyRequests.table == map[]
      ensures this.limits == limits && this.legacyMax == legacyMax && this.window == window
      ensures fresh(Layers()) && fresh(legacyRequests)
    {
      this.limits, this.legacyMax, this.window := limits, legacyMax, window;
      ipRequests := new Storage();
      principalRequests := new Storage();
      tenantRequests := new Storage();
      databaseRequests := new Storage();
      legacyRequests := new Storage();
    }

    /** Legacy mode takes over when a legacy limit is set, or no layered limit is positive. */
    predicate LayeredMode() {
      legacyMax == 0 && (limits.ip > 0 || limits.principal > 0 || limits.tenant > 0 || limits.database > 0)
    }

    method PopExpired(requests: seq<real>, cutoff: real) returns (kept: seq<real>)
      ensures kept == Prune(requests, cutoff)
    {
      kept := requests;
      while kept != [] && kept[0] <= cutoff
        invariant Prune(kept, cutoff) == Prune(requests, cutoff)
        decreases |kept|
      {
        kept := kept[1..];
      }
    }

    method CheckLimit(key: string, max: int, storage: Storage, cutoff: real, now: real) returns (admitted: bool)
      modifies storage
      ensures storage.table == CheckTable(old(storage.table), key, max, cutoff, now).0
      ensures admitted == CheckTable(old(storage.table), key, max, cutoff, now).1
    {
      if max <= 0 {
        return true;
      }
      var requests := PopExpired(QueueOf(storage.table, key), cutoff);
      assert requests == Prune(old(QueueOf(storage.table, key)), cutoff);
      if |requests| >= max {
        storage.table := storage.table[key := requests];
        return false;
      }
      storage.table := storage.table[key := requests + [now]];
      return true;
    }

    method AllowRequest(keys: Keys, now: real) returns (exceeded: Option<Dimension>)
      requires Valid()
      modifies Layers()
      ensures (Snapshot(), exceeded) == Allow(old(Snapshot()), limits, window, keys, now)
    {
      var cutoff := now - window;
      ghost var rest := AllowFrom(0, Snapshot(), limits, keys, cutoff, now);
      if Keyed(keys, Ip) {
        var ok := CheckLimit(keys.ip.value, limits.ip, ipRequests, cutoff, now);
        if !ok {
          return Some(Ip);
        }
      }
      assert rest == AllowFrom(1, Snapshot(), limits, keys, cutoff, now);
      if Keyed(keys, Principal) {
        var ok := CheckLimit(keys.principal.value, limits.principal, principalRequests, cutoff, now);
        if !ok {
          return Some(Principal);
        }
      }
      assert rest == AllowFrom(2, Snapshot(), limits, keys, cutoff, now);
      if Keyed(keys, Tenant) {
        var ok := CheckLimit(keys.tenant.value, limits.tenant, tenantRequests, cutoff, now);
        if !ok {
          return Some(Tenant);
        }
      }
      assert rest == AllowFrom(3, Snapshot(), limits, keys, cutoff, now);
      if Keyed(keys, Database) {
        var ok := CheckLimit(keys.database.value, limits.database, databaseRequests, cutoff, now);
        if !ok {
          return Some(Database);
        }
      }
      assert rest == AllowFrom(4, Snapshot(), limits, keys, cutoff, now);
      return None;
    }

    /** The legacy check has no "no limit" case: a limit of zero refuses everyone. */
    method AllowLegacyRequest(client: string, now: real) returns (admitted: bool)
      modifies legacyRequests
      ensures (legacyRequests.table, admitted)
           == LegacyStep(old(legacyRequests.table), legacyMax, window, Call(client, now))
      ensures legacyMax <= 0 ==> !admitted
    {
      var requests := PopExpired(QueueOf(legacyRequests.table, client), now - window);
      admitted := |requests| < legacyMax;
      if admitted {
        requests := requests + [now];
      }
      legacyRequests.table := legacyRequests.table[client := requests];
    }

    /** One request to the guarded path: one of the two checks decides and the other's tables stay as they are.
        The layered check decides when no legacy limit is set and some layered one is positive; with no positive
        limit at all the legacy check refuses everyone. */
    method Dispatch(keys: Keys, client: string, now: real) returns (forwarded: bool)
      requires Valid()
      modifies Layers(), legacyRequests
      ensures legacyMax == 0 && (limits.ip > 0 || limits.principal > 0 || limits.tenant > 0 || limits.database > 0) ==>
        var (after, exceeded) := Allow(old(Snapshot()), limits, window, keys, now);
        forwarded == exceeded.None? && Snapshot() == after && legacyRequests.table == old(legacyRequests.table)
      ensures (|| legacyMax != 0
               || (limits.ip <= 0 && limits.principal <= 0 && limits.tenant <= 0 && limits.database <= 0)) ==>
        && (legacyRequests.table, forwarded)
             == LegacyStep(old(legacyRequests.table), legacyMax, window, Call(client, now))
        && Snapshot() == old(Snapshot())
      ensures (|| legacyMax < 0
               || (&& legacyMax == 0 && limits.ip <= 0 && limits.principal <= 0 && limits.tenant <= 0
                   && limits.database <= 0)) ==>
        !forwarded
    {
      if LayeredMode() {
        var exceeded := AllowRequest(keys, now);
        forwarded := exceeded.None?;
      } else {
        forwarded := AllowLegacyRequest(client, now);
      }
    }
  }

  // ---- What one request charges ----

  /** The dimension has a key and a positive limit. */
  predicate Enabled(limits: Limits, keys: Keys, d: Dimension) {
    Keyed(keys, d) && limits.Of(d) > 0
  }

  /** The checks reached dimension d and passed it. */
  predicate Passed(refused: Option<Dimension>, d: Dimension) {
    refused.None? || d.Rank() < refused.value.Rank()
  }

  predicate Charged(limits: Limits, keys: Keys, refused: Option<Dimension>, d: Dimension, key: string) {
    Enabled(limits, keys, d) && keys.Of(d).value == key && Passed(refused, d)
  }

  /** What one dimension's check does to one key, and when it passes. */
  lemma DimensionCheck(ts: Tables, limits: Limits, keys: Keys, e: Dimension, cutoff: real, now: real, d: Dimension,
                       key: string)
    ensures var (after, ok) := CheckDimension(ts, limits, keys, e, cutoff, now);
      after.Queue(d, key) ==
        if d == e && Enabled(limits, keys, e) && keys.Of(e).value == key then
          Check(ts.Queue(d, key), limits.Of(e), cutoff, now).0
        else ts.Queue(d, key)
    ensures var (after, ok) := CheckDimension(ts, limits, keys, e, cutoff, now);
      ok == (Enabled(limits, keys, e) ==> Check(ts.Queue(e, keys.Of(e).value), limits.Of(e), cutoff, now).1)
  {
  }

  predicate RefusedOn(limits: Limits, keys: Keys, refused: Option<Dimension>, d: Dimension, key: string) {
    refused == Some(d) && Enabled(limits, keys, d) && keys.Of(d).value == key
  }

  /** What a request with a verdict does to the deque of one key: charged where it passed, which needs room;
      only pruned where it was refused, for lack of room; and untouched anywhere else. */
  predicate ChargesKey(before: seq<real>, after: seq<real>, limits: Limits, keys: Keys, refused: Option<Dimension>,
                       cutoff: real, now: real, d: Dimension, key: string) {
    var pruned := Prune(before, cutoff);
    if Charged(limits, keys, refused, d, key) then after == pruned + [now] && |pruned| < limits.Of(d)
    else if RefusedOn(limits, keys, refused, d, key) then after == pruned && |pruned| >= limits.Of(d)
    else after == before
  }

  /** The checks from one dimension on leave the earlier dimensions alone. */
  lemma {:induction false} AllowLater(rank: nat, ts: Tables, limits: Limits, keys: Keys, cutoff: real, now: real,
                                      d: Dimension, key: string)
    requires d.Rank() < rank
    ensures var (after, refused) := AllowFrom(rank, ts, limits, keys, cutoff, now);
      && after.Queue(d, key) == ts.Queue(d, key)
      && (refused.Some? ==> rank <= refused.value.Rank() && Enabled(limits, keys, refused.value))
    decreases 4 - rank
  {
    if rank < 4 {
      var (t, ok) := CheckDimension(ts, limits, keys, At(rank), cutoff, now);
      DimensionCheck(ts, limits, keys, At(rank), cutoff, now, d, key);
      if ok {
        AllowLater(rank + 1, t, limits, keys, cutoff, now, d, key);
      }
    }
  }

  /** The checks from one dimension on, for one key of that dimension or a later one. */
  lemma {:induction false} AllowStages(rank: nat, ts: Tables, limits: Limits, keys: Keys, cutoff: real, now: real,
                                       d: Dimension, key: string)
    requires rank <= d.Rank()
    ensures var (after, refused) := AllowFrom(rank, ts, limits, keys, cutoff, now);
      && ChargesKey(ts.Queue(d, key), after.Queue(d, key), limits, keys, refused, cutoff, now, d, key)
      && (refused.Some? ==> rank <= refused.value.Rank() && Enabled(limits, keys, refused.value))
    decreases 4 - rank
  {
    var (t, ok) := CheckDimension(ts, limits, keys, At(rank), cutoff, now);
    DimensionCheck(ts, limits, keys, At(rank), cutoff, now, d, key);
    if ok {
      if rank == d.Rank() {
        AllowLater(rank + 1, t, limits, keys, cutoff, now, d, key);
      } else {
        AllowStages(rank + 1, t, limits, keys, cutoff, now, d, key);
      }
    }
  }

  /** A request is charged to exactly the enabled dimensions before the one that refuses it, to all enabled
      ones if none does, and the deque of any other key or later dimension is untouched. */
  lemma ChargedExactly(ts: Tables, limits: Limits, window: real, keys: Keys, now: real, d: Dimension, key: string)
    ensures var (after, refused) := Allow(ts, limits, window, keys, now);
      && ChargesKey(ts.Queue(d, key), after.Queue(d, key), limits, keys, refused, now - window, now, d, key)
      && (refused.Some? ==> Enabled(limits, keys, refused.value))
  {
    AllowStages(0, ts, limits, keys, now - window, now, d, key);
  }

  // ---- Runs ----

  datatype Arrival = Arrival(keys: Keys, now: real)

  function After(limits: Limits, window: real, run: seq<Arrival>): Tables {
    if run == [] then NO_CHARGES
    else Allow(After(limits, window, run[..|run| - 1]), limits, window, run[|run| - 1].keys, run[|run| - 1].now).0
  }

  /** The verdict on the last arrival. */
  function Verdict(limits: Limits, window: real, run: seq<Arrival>): Option<Dimension>
    requires run != []
  {
    Allow(After(limits, window, run[..|run| - 1]), limits, window, run[|run| - 1].keys, run[|run| - 1].now).1
  }

  /** When key k of dimension d was charged. */
  function Charges(limits: Limits, window: real, run: seq<Arrival>, d: Dimension, key: string): seq<real> {
    if run == [] then []
    else
      var before, last := Charges(limits, window, run[..|run| - 1], d, key), run[|run| - 1];
      if Charged(limits, last.keys, Verdict(limits, window, run), d, key) then before + [last.now] else before
  }

  /** When requests with key k in dimension d were forwarded. */
  function Forwarded(limits: Limits, window: real, run: seq<Arrival>, d: Dimension, key: string): seq<real> {
    if run == [] then []
    else
      var before, last := Forwarded(limits, window, run[..|run| - 1], d, key), run[|run| - 1];
      if Verdict(limits, window, run).None? && last.keys.Of(d) == Some(key) then before + [last.now] else before
  }

  predicate Chronological(run: seq<Arrival>) {
    forall i, j | 0 <= i <= j < |run| :: run[i].now <= run[j].now
  }

  function Latest(run: seq<Arrival>): real {
    if run == [] then 0.0 else run[|run| - 1].now
  }

  function LedgerOf(limits: Limits, window: real, run: seq<Arrival>, d: Dimension, key: string): Ledger {
    Ledger(After(limits, window, run).Queue(d, key), Charges(limits, window, run, d, key))
  }

  /** Every key of every dimension keeps a good ledger over a whole run. */
  lemma {:induction false} RunStaysGood(limits: Limits, window: real, run: seq<Arrival>, d: Dimension, key: string)
    requires Chronological(run) && limits.Of(d) > 0
    ensures run == [] ==> LedgerOf(limits, window, run, d, key) == Ledger([], [])
    ensures run != [] ==> LedgerOf(limits, window, run, d, key).Good(window, limits.Of(d), Latest(run))
  {
    if run != [] {
      var init, last := run[..|run| - 1], run[|run| - 1];
      RunStaysGood(limits, window, init, d, key);
      var l := LedgerOf(limits, window, init, d, key);
      if init == [] {
        assert l.Good(window, limits.Of(d), last.now);
      } else {
        GoodLater(l, window, limits.Of(d), Latest(init), last.now);
      }
      ArrivalStaysGood(limits, window, run, d, key);
    }
  }

  lemma RequestMoves(ts: Tables, limits: Limits, window: real, keys: Keys, now: real, d: Dimension, key: string,
                     charges: seq<real>)
    ensures var (after, refused) := Allow(ts, limits, window, keys, now);
      Moved(Ledger(ts.Queue(d, key), charges),
            Ledger(after.Queue(d, key), if Charged(limits, keys, refused, d, key) then charges + [now] else charges),
            window, limits.Of(d), now)
  {
    ChargedExactly(ts, limits, window, keys, now, d, key);
  }

  /** How the last arrival changes one key's ledger. */
  lemma LedgerStep(limits: Limits, window: real, run: seq<Arrival>, d: Dimension, key: string)
    requires run != []
    ensures var last := run[|run| - 1];
      Moved(LedgerOf(limits, window, run[..|run| - 1], d, key), LedgerOf(limits, window, run, d, key), window,
            limits.Of(d), last.now)
  {
    var init, last := run[..|run| - 1], run[|run| - 1];
    RequestMoves(After(limits, window, init), limits, window, last.keys, last.now, d, key,
                 Charges(limits, window, init, d, key));
  }

  lemma ArrivalStaysGood(limits: Limits, window: real, run: seq<Arrival>, d: Dimension, key: string)
    requires limits.Of(d) > 0 && run != []
    requires LedgerOf(limits, window, run[..|run| - 1], d, key).Good(window, limits.Of(d), Latest(run))
    ensures LedgerOf(limits, window, run, d, key).Good(window, limits.Of(d), Latest(run))
  {
    LedgerStep(limits, window, run, d, key);
    MovedGood(LedgerOf(limits, window, run[..|run| - 1], d, key), LedgerOf(limits, window, run, d, key), window,
              limits.Of(d), Latest(run));
  }

  /** Whole runs: for any key with a positive limit, at most that many charges fall into any window. */
  lemma ChargesBounded(limits: Limits, window: real, run: seq<Arrival>, d: Dimension, key: string, t: real)
    requires Chronological(run) && limits.Of(d) > 0
    ensures Count(Charges(limits, window, run, d, key), t - window, t) <= limits.Of(d)
  {
    RunStaysGood(limits, window, run, d, key);
    WindowBound(Charges(limits, window, run, d, key), window, limits.Of(d), t);
  }

  lemma {:induction false} ForwardedAreCharged(limits: Limits, window: real, run: seq<Arrival>, d: Dimension,
                                               key: string, from: real, to: real)
    requires limits.Of(d) > 0 && key != ""
    ensures Count(Forwarded(limits, window, run, d, key), from, to)
        <= Count(Charges(limits, window, run, d, key), from, to)
  {
    if run != [] {
      var init, last := run[..|run| - 1], run[|run| - 1];
      ForwardedAreCharged(limits, window, init, d, key, from, to);
      FilterAppend(Within(from, to), Forwarded(limits, window, init, d, key), [last.now]);
      FilterAppend(Within(from, to), Charges(limits, window, init, d, key), [last.now]);
    }
  }

  lemma ForwardedWithin(limits: Limits, window: real, run: seq<Arrival>, d: Dimension, key: string, t: real)
    requires Chronological(run) && limits.Of(d) > 0 && key != ""
    ensures Count(Forwarded(limits, window, run, d, key), t - window, t) <= limits.Of(d)
  {
    ForwardedAreCharged(limits, window, run, d, key, t - window, t);
    ChargesBounded(limits, window, run, d, key, t);
  }

  /** So forwarded traffic respects every limit at once, in any window. */
  lemma ForwardedBounded(limits: Limits, window: real, run: seq<Arrival>, t: real)
    requires Chronological(run)
    ensures forall d: Dimension, key: string | limits.Of(d) > 0 && key != "" ::
      Count(Forwarded(limits, window, run, d, key), t - window, t) <= limits.Of(d)
  {
    forall d: Dimension, key: string | limits.Of(d) > 0 && key != ""
      ensures Count(Forwarded(limits, window, run, d, key), t - window, t) <= limits.Of(d)
    {
      ForwardedWithin(limits, window, run, d, key, t);
    }
  }

  /** The room a key has, by counting over the whole history. */
  predicate HasRoom(limits: Limits, window: real, run: seq<Arrival>, d: Dimension, key: string, now: real) {
    Count(Charges(limits, window, run, d, key), now - window, now) < limits.Of(d)
  }

  lemma VerdictAt(limits: Limits, window: real, run: seq<Arrival>, keys: Keys, now: real, d: Dimension)
    requires Chronological(run) && (run != [] ==> Latest(run) <= now)
    ensures var v := Allow(After(limits, window, run), limits, window, keys, now).1;
      && (v.Some? ==> Enabled(limits, keys, v.value))
      && (Enabled(limits, keys, d) && Passed(v, d) ==> HasRoom(limits, window, run, d, keys.Of(d).value, now))
      && (Enabled(limits, keys, d) && v == Some(d) ==> !HasRoom(limits, window, run, d, keys.Of(d).value, now))
  {
    var ts := After(limits, window, run);
    if Enabled(limits, keys, d) {
      ChargedExactly(ts, limits, window, keys, now, d, keys.Of(d).value);
      RoomMeans(limits, window, run, d, keys.Of(d).value, now);
    } else {
      ChargedExactly(ts, limits, window, keys, now, d, "");
    }
  }

  /** A request is forwarded exactly when each of its enabled keys has room, and otherwise refused by the
      first enabled dimension that has none. */
  lemma VerdictCounts(limits: Limits, window: real, run: seq<Arrival>, keys: Keys, now: real)
    requires Chronological(run) && (run != [] ==> Latest(run) <= now)
    ensures var v := Allow(After(limits, window, run), limits, window, keys, now).1;
      && (forall d: Dimension | Enabled(limits, keys, d) && Passed(v, d) ::
          HasRoom(limits, window, run, d, keys.Of(d).value, now))
      && (v.Some? ==>
            Enabled(limits, keys, v.value) && !HasRoom(limits, window, run, v.value, keys.Of(v.value).value, now))
  {
    var v := Allow(After(limits, window, run), limits, window, keys, now).1;
    forall d: Dimension | Enabled(limits, keys, d) && Passed(v, d)
      ensures HasRoom(limits, window, run, d, keys.Of(d).value, now)
    {
      VerdictAt(limits, window, run, keys, now, d);
    }
    VerdictAt(limits, window, run, keys, now, if v.Some? then v.value else Ip);
  }

  lemma RoomMeans(limits: Limits, window: real, run: seq<Arrival>, d: Dimension, key: string, now: real)
    requires Chronological(run) && limits.Of(d) > 0 && (run != [] ==> Latest(run) <= now)
    ensures HasRoom(limits, window, run, d, key, now)
       <==> |Prune(After(limits, window, run).Queue(d, key), now - window)| < limits.Of(d)
  {
    RunStaysGood(limits, window, run, d, key);
    var l := LedgerOf(limits, window, run, d, key);
    if run != [] {
      GoodLater(l, window, limits.Of(d), Latest(run), now);
    }
    CheckCounts(l, limits.Of(d), window, now);
  }

  // ---- The legacy check ----

  datatype Call = Call(client: string, now: real)

  /** One call of `_allow_legacy_request`: the table after it, and the verdict. */
  function LegacyStep(t: Table, max: int, window: real, c: Call): (Table, bool) {
    var (queue, admitted) := Check(QueueOf(t, c.client), max, c.now - window, c.now);
    (t[c.client := queue], admitted)
  }

  function LegacyAfter(max: int, window: real, run: seq<Call>): Table {
    if run == [] then map[] else LegacyStep(LegacyAfter(max, window, run[..|run| - 1]), max, window, run[|run| - 1]).0
  }

  /** When calls of the client were admitted. */
  function LegacyAdmitted(max: int, window: real, run: seq<Call>, client: string): seq<real> {
    if run == [] then []
    else
      var init, last := run[..|run| - 1], run[|run| - 1];
      var before := LegacyAdmitted(max, window, init, client);
      var admitted := LegacyStep(LegacyAfter(max, window, init), max, window, last).1;
      if last.client == client && admitted then before + [last.now] else before
  }

  function LegacyLedger(max: int, window: real, run: seq<Call>, client: string): Ledger {
    Ledger(QueueOf(LegacyAfter(max, window, run), client), LegacyAdmitted(max, window, run, client))
  }

  lemma LegacyMoves(max: int, window: real, run: seq<Call>, client: string)
    requires run != []
    ensures Moved(LegacyLedger(max, window, run[..|run| - 1], client), LegacyLedger(max, window, run, client), window,
                  max, run[|run| - 1].now)
  {
  }

  lemma {:induction false} LegacyStaysGood(max: nat, window: real, run: seq<Call>, client: string)
    requires max > 0 && forall i, j | 0 <= i <= j < |run| :: run[i].now <= run[j].now
    ensures run == [] ==> LegacyLedger(max, window, run, client) == Ledger([], [])
    ensures run != [] ==> LegacyLedger(max, window, run, client).Good(window, max, run[|run| - 1].now)
  {
    if run != [] {
      var init, last := run[..|run| - 1], run[|run| - 1];
      LegacyStaysGood(max, window, init, client);
      var l := LegacyLedger(max, window, init, client);
      if init == [] {
        assert l.Good(window, max, last.now);
      } else {
        GoodLater(l, window, max, init[|init| - 1].now, last.now);
      }
      LegacyMoves(max, window, run, client);
      MovedGood(l, LegacyLedger(max, window, run, client), window, max, last.now);
    }
  }

  /** The legacy limit over whole runs: any client, any window. */
  lemma LegacyBounded(max: nat, window: real, run: seq<Call>, client: string, t: real)
    requires max > 0 && forall i, j | 0 <= i <= j < |run| :: run[i].now <= run[j].now
    ensures Count(LegacyAdmitted(max, window, run, client), t - window, t) <= max
  {
    LegacyStaysGood(max, window, run, client);
    WindowBound(LegacyAdmitted(max, window, run, client), window, max, t);
  }
}
