/** The hash chain of `config/app_logger.py`: every audit event hashes the previous digest of its context
    followed by its payload. The digest function is a parameter; nothing is assumed of it but the format of
    its results, so tamper evidence is stated as "the same payloads, or an explicit collision". */
module AuditChain {

  type Context = nat
  type Token = nat
  type Hash = string -> string

  datatype Event = Event(payload: string, auditHash: string, prevAuditHash: string)

  /** The chain heads by context, values saved by reset tokens, and the events the sink received. */
  datatype State = State(heads: map<Context, string>, saved: map<Token, (Context, string)>, log: seq<Event>)

  const START := State(map[], map[], [])

  datatype Op =
    | Log(ctx: Context, payload: string)
    | Fork(parent: Context, child: Context)  // a task started from another copies its context
    | Restart(ctx: Context, token: Token)    // set_current_audit_hash("")
    | Reset(token: Token)                    // reset_current_audit_hash(token)

  /** `get_current_audit_hash`; a fresh context has the empty default. */
  function Head(s: State, ctx: Context): string {
    if ctx in s.heads then s.heads[ctx] else ""
  }

  function Step(h: Hash, s: State, op: Op): State {
    match op
    case Log(ctx, payload) =>
      var hash := h(Head(s, ctx) + payload);
      s.(heads := s.heads[ctx := hash], log := s.log + [Event(payload, hash, Head(s, ctx))])
    case Fork(parent, child) => s.(heads := s.heads[child := Head(s, parent)])
    case Restart(ctx, token) => s.(heads := s.heads[ctx := ""], saved := s.saved[token := (ctx, Head(s, ctx))])
    case Reset(token) => if token in s.saved then s.(heads := s.heads[s.saved[token].0 := s.saved[token].1]) else s
  }

  function Run(h: Hash, ops: seq<Op>): State {
    if ops == [] then START else Step(h, Run(h, ops[..|ops| - 1]), ops[|ops| - 1])
  }

  class AuditLog {
    const digest: Hash
    var heads: map<Context, string>
    var saved: map<Token, (Context, string)>
    var sink: seq<Event>

    function Current(): State
      reads this
    {
      State(heads, saved, sink)
    }

    constructor (digest: Hash)
      ensures Current() == START && this.digest == digest
    {
      this.digest, heads, saved, sink := digest, map[], map[], [];
    }

    method GetCurrentAuditHash(ctx: Context) returns (head: string)
      ensures head == Head(Current(), ctx)
    {
      head := if ctx in heads then heads[ctx] else "";
    }

    method SetCurrentAuditHash(ctx: Context, hash: string, token: Token)
      modifies this
      ensures sink == old(sink) && heads == old(heads)[ctx := hash]
      ensures saved == old(saved)[token := (ctx, old(Head(Current(), ctx)))]
      ensures hash == "" ==> Current() == Step(digest, old(Current()), Restart(ctx, token))
    {
      var before := GetCurrentAuditHash(ctx);
      saved := saved[token := (ctx, before)];
      heads := heads[ctx := hash];
    }

    method ResetCurrentAuditHash(token: Token)
      modifies this
      ensures Current() == Step(digest, old(Current()), Reset(token))
      ensures token in saved ==> saved[token].0 in heads && heads[saved[token].0] == saved[token].1
      ensures sink == old(sink) && saved == old(saved)
    {
      if token in saved {
        heads := heads[saved[token].0 := saved[token].1];
      }
    }

    /** `log_audit_event`, for the serialized payload that is hashed. */
    method LogAuditEvent(ctx: Context, payload: string)
      modifies this
      ensures Current() == Step(digest, old(Current()), Log(ctx, payload))
      ensures var prev := if ctx in old(heads) then old(heads)[ctx] else "";
        && sink == old(sink) + [Event(payload, digest(prev + payload), prev)]
        && heads == old(heads)[ctx := digest(prev + payload)] && saved == old(saved)
    {
      var prevHash := GetCurrentAuditHash(ctx);
      var currentHash := digest(prevHash + payload);
      heads := heads[ctx := currentHash];
      sink := sink + [Event(payload, currentHash, prevHash)];
    }

    method ForkContext(parent: Context, child: Context)
      modifies this
      ensures Current() == Step(digest, old(Current()), Fork(parent, child))
      ensures heads == old(heads)[child := if parent in old(heads) then old(heads)[parent] else ""]
      ensures sink == old(sink) && saved == old(saved)
    {
      var head := GetCurrentAuditHash(parent);
      heads := heads[child := head];
    }
  }

  // ---- Links ----

  /** A value of the chain is empty or the digest of a logged event. */
  predicate Known(log: seq<Event>, value: string) {
    value == "" || exists e | e in log :: e.auditHash == value
  }

  predicate Linked(h: Hash, log: seq<Event>) {
    forall i | 0 <= i < |log| ::
      log[i].auditHash == h(log[i].prevAuditHash + log[i].payload) && Known(log[..i], log[i].prevAuditHash)
  }

  /** No context ever points outside the log. */
  ghost predicate Sound(h: Hash, s: State) {
    && Linked(h, s.log)
    && (forall c | c in s.heads :: Known(s.log, s.heads[c]))
    && forall t | t in s.saved :: Known(s.log, s.saved[t].1)
  }

  lemma KnownLater(log: seq<Event>, e: Event, value: string)
    requires Known(log, value)
    ensures Known(log + [e], value)
  {
    if value != "" {
      var x :| x in log && x.auditHash == value;
      assert x in log + [e];
    }
  }

  lemma LogSound(h: Hash, s: State, ctx: Context, payload: string)
    requires Sound(h, s)
    ensures Sound(h, Step(h, s, Log(ctx, payload)))
  {
    var s' := Step(h, s, Log(ctx, payload));
    var e := s'.log[|s.log|];
    assert e in s'.log;
    forall i | 0 <= i < |s'.log|
      ensures s'.log[i].auditHash == h(s'.log[i].prevAuditHash + s'.log[i].payload)
      ensures Known(s'.log[..i], s'.log[i].prevAuditHash)
    {
      assert s'.log[..i] == s.log[..i];
      if i == |s.log| {
        assert s.log[..i] == s.log;
      }
    }
    forall c | c in s'.heads ensures Known(s'.log, s'.heads[c]) {
      if c != ctx {
        KnownLater(s.log, e, s.heads[c]);
      }
    }
    forall t | t in s'.saved ensures Known(s'.log, s'.saved[t].1) {
      KnownLater(s.log, e, s.saved[t].1);
    }
  }

  /** With any forks, restarts and resets, every event's previous hash is empty or the digest of an earlier event. */
  lemma {:induction false} RunSound(h: Hash, ops: seq<Op>)
    ensures Sound(h, Run(h, ops))
    decreases |ops|
  {
    if ops != [] {
      var s, op := Run(h, ops[..|ops| - 1]), ops[|ops| - 1];
      RunSound(h, ops[..|ops| - 1]);
      if op.Log? {
        LogSound(h, s, op.ctx, op.payload);
      }
    }
  }

  // ---- Chains of payloads ----

  /** The head after logging the payloads one after another from an empty chain. */
  function Chain(h: Hash, payloads: seq<string>): string {
    if payloads == [] then "" else h(Chain(h, payloads[..|payloads| - 1]) + payloads[|payloads| - 1])
  }

  /** Indices of the log, in order, each event following the one before it, the first starting a chain. */
  predicate Path(log: seq<Event>, path: seq<nat>) {
    && (forall k | 0 <= k < |path| :: path[k] < |log|)
    && (forall k | 0 < k < |path| :: path[k - 1] < path[k] && log[path[k]].prevAuditHash == log[path[k - 1]].auditHash)
    && (path != [] ==> log[path[0]].prevAuditHash == "")
  }

  function Payloads(log: seq<Event>, path: seq<nat>): seq<string>
    requires Path(log, path)
  {
    seq(|path|, k requires 0 <= k < |path| => log[path[k]].payload)
  }

  lemma ExtendPath(h: Hash, log: seq<Event>, before: seq<nat>, i: nat)
    requires Path(log, before) && before != [] && before[|before| - 1] < i < |log|
    requires log[i].prevAuditHash == log[before[|before| - 1]].auditHash
    ensures Path(log, before + [i])
    ensures Chain(h, Payloads(log, before + [i])) == h(Chain(h, Payloads(log, before)) + log[i].payload)
  {
    var path := before + [i];
    assert path[0] == before[0];
    forall k | 0 < k < |path|
      ensures path[k - 1] < path[k] && log[path[k]].prevAuditHash == log[path[k - 1]].auditHash
    {
      if k < |before| {
        assert path[k] == before[k] && path[k - 1] == before[k - 1];
      }
    }
    assert Payloads(log, path) == Payloads(log, before) + [log[i].payload];
  }

  /** Links reach the start of a chain, and the digest of an event is that of the payloads on the way. */
  lemma {:induction false} LinksReachGenesis(h: Hash, log: seq<Event>, i: nat) returns (path: seq<nat>)
    requires Linked(h, log) && i < |log|
    ensures Path(log, path) && path != [] && path[|path| - 1] == i
    ensures Chain(h, Payloads(log, path)) == log[i].auditHash
    decreases i
  {
    assert Known(log[..i], log[i].prevAuditHash);
    if log[i].prevAuditHash == "" {
      path := [i];
      assert Payloads(log, path) == [log[i].payload];
      assert Chain(h, []) == "";
    } else {
      var e :| e in log[..i] && e.auditHash == log[i].prevAuditHash;
      var j :| 0 <= j < i && log[j] == e;
      var before := LinksReachGenesis(h, log, j);
      ExtendPath(h, log, before, i);
      path := before + [i];
    }
  }

  /** In every run, every logged event is the end of a chain that starts empty. */
  lemma EveryEventAnchored(h: Hash, ops: seq<Op>, i: nat) returns (path: seq<nat>)
    requires i < |Run(h, ops).log|
    ensures Path(Run(h, ops).log, path) && path != [] && path[|path| - 1] == i
    ensures Chain(h, Payloads(Run(h, ops).log, path)) == Run(h, ops).log[i].auditHash
  {
    RunSound(h, ops);
    path := LinksReachGenesis(h, Run(h, ops).log, i);
  }

  // ---- Tamper evidence ----

  predicate HexDigit(c: char) {
    '0' <= c <= '9' || 'a' <= c <= 'f'
  }

  /** Digests are 64 hexadecimal digits. */
  ghost predicate HexDigests(h: Hash) {
    forall x :: |h(x)| == 64 && HexDigit(h(x)[0])
  }

  /** A serialized payload is a JSON object. */
  predicate Serialized(payload: string) {
    payload != "" && payload[0] == '{'
  }

  /** The inputs at which two chains with one head part ways. */
  function Divergence(h: Hash, a: seq<string>, b: seq<string>): (string, string)
    requires a != [] && b != []
    decreases |a|
  {
    var a', b' := a[..|a| - 1], b[..|b| - 1];
    var x, y := Chain(h, a') + a[|a| - 1], Chain(h, b') + b[|b| - 1];
    if x != y || a' == [] || b' == [] then (x, y) else Divergence(h, a', b')
  }

  /** Previous digest and payload can be told apart in their concatenation. */
  lemma UniqueParse(h: Hash, a: seq<string>, b: seq<string>, p: string, q: string)
    requires HexDigests(h) && Serialized(p) && Serialized(q) && Chain(h, a) + p == Chain(h, b) + q
    ensures Chain(h, a) == Chain(h, b) && p == q && (a == [] <==> b == [])
  {
    var x, y := Chain(h, a), Chain(h, b);
    assert (x + p)[0] == (if x == "" then p[0] else x[0]);
    assert (y + q)[0] == (if y == "" then q[0] else y[0]);
    assert a != [] ==> |x| == 64 && HexDigit(x[0]);
    assert b != [] ==> |y| == 64 && HexDigit(y[0]);
    assert |x| == |y|;
    assert x == (x + p)[..|x|] == (y + q)[..|y|] == y;
    assert p == (x + p)[|x|..] == (y + q)[|y|..] == q;
  }

  /** Two chains with the same head carry the same payloads, or exhibit two inputs with one digest. */
  lemma {:induction false} TamperEvident(h: Hash, a: seq<string>, b: seq<string>)
    requires HexDigests(h) && (forall p | p in a :: Serialized(p)) && (forall p | p in b :: Serialized(p))
    requires Chain(h, a) == Chain(h, b)
    ensures a == b || (a != [] && b != [] && Divergence(h, a, b).0 != Divergence(h, a, b).1
                       && h(Divergence(h, a, b).0) == h(Divergence(h, a, b).1))
    decreases |a|
  {
    if a != [] && b != [] {
      var a', b', p, q := a[..|a| - 1], b[..|b| - 1], a[|a| - 1], b[|b| - 1];
      assert a == a' + [p] && b == b' + [q];
      if Chain(h, a') + p == Chain(h, b') + q {
        assert Serialized(p) && Serialized(q);
        UniqueParse(h, a', b', p, q);
        TamperEvident(h, a', b');
      }
    } else {
      assert a != [] ==> |Chain(h, a)| == 64;
      assert b != [] ==> |Chain(h, b)| == 64;
    }
  }

  /** So two events of any two logs with one digest end chains of the same payloads, or show the collision. */
  lemma EventsTamperEvident(h: Hash, log1: seq<Event>, path1: seq<nat>, log2: seq<Event>, path2: seq<nat>)
    requires HexDigests(h) && Path(log1, path1) && Path(log2, path2)
    requires (forall e | e in log1 :: Serialized(e.payload)) && forall e | e in log2 :: Serialized(e.payload)
    requires Chain(h, Payloads(log1, path1)) == Chain(h, Payloads(log2, path2))
    ensures var a, b := Payloads(log1, path1), Payloads(log2, path2);
      a == b || (a != [] && b != [] && Divergence(h, a, b).0 != Divergence(h, a, b).1
                 && h(Divergence(h, a, b).0) == h(Divergence(h, a, b).1))
  {
    forall p | p in Payloads(log1, path1) ensures Serialized(p) {
      var k :| 0 <= k < |path1| && p == log1[path1[k]].payload;
      assert log1[path1[k]] in log1;
    }
    forall p | p in Payloads(log2, path2) ensures Serialized(p) {
      var k :| 0 <= k < |path2| && p == log2[path2[k]].payload;
      assert log2[path2[k]] in log2;
    }
    TamperEvident(h, Payloads(log1, path1), Payloads(log2, path2));
  }
}
